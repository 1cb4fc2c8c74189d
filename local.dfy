/**
 * The local destination: the backup file is written under the output
 * directory, a `.last-success` marker next to that directory, and old
 * `.zip` backups are pruned so that the newest few and the newest of each
 * recent week survive.
 *
 * File times are milliseconds since the epoch. The UTC calendar (the year
 * of a time, the time its 1 January starts, that day's weekday) comes with
 * each file's status, as `Date` computes it.
 */
module Local {
  import opened Results
  import opened Text
  import opened Order
  import opened Paths

  const DayMs := 86400000

  /** What `fs.stat` and the UTC calendar say about one file. */
  datatype Stat = Stat(mtime: int, year: int, yearStart: int, jan1Weekday: int)

  /** The calendar facts agree with the time: it lies in the year, which starts on a weekday 0..6. */
  predicate ValidYear(s: Stat) {
    s.yearStart <= s.mtime < s.yearStart + 366 * DayMs && 0 <= s.jan1Weekday < 7
  }

  function Min(a: int, b: int): int {
    if a < b then a else b
  }

  // ---------------------------------------------------------------------
  // getWeekKey
  // ---------------------------------------------------------------------

  /** `Math.floor(diff / 7) + 1` with `diff` in days since 1 January, shifted by
      the weekday of 1 January plus 6. */
  function WeekNumber(s: Stat): int {
    (s.mtime - s.yearStart + (s.jan1Weekday + 6) * DayMs) / (7 * DayMs) + 1
  }

  /** The week number, zero-padded to two digits. */
  function WeekDigits(s: Stat): string {
    PadStart(DecimalString(WeekNumber(s)), 2, '0')
  }

  /** `getWeekKey(date)`: `<year>-W<nn>`. */
  function WeekKey(s: Stat): string {
    DecimalString(s.year) + "-W" + WeekDigits(s)
  }

  /** Week numbers run from 1 to 54. */
  lemma WeekNumberRange(s: Stat)
    requires ValidYear(s)
    ensures 1 <= WeekNumber(s) <= 54
  {
    var x := s.mtime - s.yearStart + (s.jan1Weekday + 6) * DayMs;
    assert 0 <= x < 379 * DayMs;
  }

  /** Two digits read back as the week number. */
  lemma WeekDigitsShape(s: Stat)
    requires ValidYear(s)
    ensures |WeekDigits(s)| == 2 && AllDigits(WeekDigits(s))
    ensures DigitsValue(WeekDigits(s)) == WeekNumber(s)
  {
    WeekNumberRange(s);
    var n: nat := WeekNumber(s);
    var d := WeekDigits(s);
    DigitsValueOfDigits(n);
    if n < 10 {
      assert d == "0" + Digits(n);
      assert d[..1] == "0";
      assert DigitsValue(d[..1]) == 0;
    } else {
      assert d == Digits(n);
    }
  }

  /** 1 January is in week 1 only when it is a Sunday; on any other weekday it is in week 2. */
  lemma NewYearsDayWeek(s: Stat)
    requires ValidYear(s) && s.mtime == s.yearStart
    ensures WeekNumber(s) == (if s.jan1Weekday == 0 then 1 else 2)
  {
  }

  /** Within one year a later file never has an earlier week. */
  lemma WeekNumberMonotone(s: Stat, t: Stat)
    requires s.year == t.year && s.yearStart == t.yearStart && s.jan1Weekday == t.jan1Weekday
    requires s.mtime <= t.mtime
    ensures WeekNumber(s) <= WeekNumber(t)
  {
    var a := s.mtime - s.yearStart + (s.jan1Weekday + 6) * DayMs;
    var b := t.mtime - t.yearStart + (t.jan1Weekday + 6) * DayMs;
    assert a <= b;
    if a / (7 * DayMs) > b / (7 * DayMs) {
      assert a >= (b / (7 * DayMs) + 1) * (7 * DayMs);
    }
  }

  /** Two-digit numbers compare as strings the way they compare as numbers. */
  lemma TwoDigitsBelow(a: string, b: string)
    requires |a| == 2 && |b| == 2 && AllDigits(a) && AllDigits(b)
    ensures Below(a, b) <==> DigitsValue(a) < DigitsValue(b)
  {
    assert a[..1][..0] == [] && b[..1][..0] == [];
    assert a[..1][0] == a[0] && b[..1][0] == b[0];
    assert DigitsValue(a[..1]) == DigitValue(a[0]);
    assert DigitsValue(b[..1]) == DigitValue(b[0]);
    assert DigitsValue(a) == DigitValue(a[0]) * 10 + DigitValue(a[1]);
    assert DigitsValue(b) == DigitValue(b[0]) * 10 + DigitValue(b[1]);
    assert a[1..][0] == a[1] && b[1..][0] == b[1];
    assert a[1..][1..] == [] && b[1..][1..] == [];
    assert Below(a[1..], b[1..]) <==> a[1] < b[1];
    assert Below(a, b) <==> a[0] < b[0] || (a[0] == b[0] && a[1] < b[1]);
    assert a[0] < b[0] <==> DigitValue(a[0]) < DigitValue(b[0]);
    assert a[1] < b[1] <==> DigitValue(a[1]) < DigitValue(b[1]);
  }

  /** Within one year the greater week key is the later week, so the greatest keys are the latest weeks. */
  lemma WeekKeyOrder(s: Stat, t: Stat)
    requires ValidYear(s) && ValidYear(t) && s.year == t.year
    ensures Below(WeekKey(s), WeekKey(t)) <==> WeekNumber(s) < WeekNumber(t)
  {
    WeekDigitsShape(s);
    WeekDigitsShape(t);
    var p := DecimalString(s.year) + "-W";
    BelowCommonPrefix(p, WeekDigits(s), WeekDigits(t));
    TwoDigitsBelow(WeekDigits(s), WeekDigits(t));
  }

  // ---------------------------------------------------------------------
  // Sorting by modification time
  // ---------------------------------------------------------------------

  /** One `.zip` file of the output directory with its status. */
  datatype Entry = Entry(file: string, stat: Stat)

  predicate NewestFirst(es: seq<Entry>) {
    forall i, j :: 0 <= i < j < |es| ==> es[j].stat.mtime <= es[i].stat.mtime
  }

  function InsertByMtime(e: Entry, es: seq<Entry>): (r: seq<Entry>)
    ensures multiset(r) == multiset(es) + multiset{e} && |r| == |es| + 1
  {
    if es == [] || e.stat.mtime >= es[0].stat.mtime then [e] + es
    else
      assert es == [es[0]] + es[1..];
      [es[0]] + InsertByMtime(e, es[1..])
  }

  lemma {:induction false} InsertKeepsOrder(e: Entry, es: seq<Entry>)
    requires NewestFirst(es)
    ensures NewestFirst(InsertByMtime(e, es))
  {
    var r := InsertByMtime(e, es);
    if es == [] || e.stat.mtime >= es[0].stat.mtime {
      assert r == [e] + es;
      forall i, j | 0 <= i < j < |r| ensures r[j].stat.mtime <= r[i].stat.mtime {
        assert r[j] == es[j - 1];
        if i > 0 {
          assert r[i] == es[i - 1];
        }
      }
    } else {
      var t := InsertByMtime(e, es[1..]);
      InsertKeepsOrder(e, es[1..]);
      assert es == [es[0]] + es[1..];
      assert r == [es[0]] + t;
      forall i, j | 0 <= i < j < |r| ensures r[j].stat.mtime <= r[i].stat.mtime {
        assert r[j] == t[j - 1];
        if i == 0 {
          assert r[j] in multiset(t);
          assert r[j] == e || r[j] in es[1..];
        } else {
          assert r[i] == t[i - 1];
        }
      }
    }
  }

  /** `fileStats.sort((a, b) => b.mtime - a.mtime)`: newest first; files with
      the same time keep their listing order. */
  function SortByMtime(es: seq<Entry>): (r: seq<Entry>)
    ensures multiset(r) == multiset(es) && |r| == |es|
    ensures NewestFirst(r)
  {
    if es == [] then []
    else
      assert es == [es[0]] + es[1..];
      var t := SortByMtime(es[1..]);
      InsertKeepsOrder(es[0], t);
      InsertByMtime(es[0], t)
  }

  /** The entries whose modification time is `m`, in their order. */
  function WithMtime(es: seq<Entry>, m: int): seq<Entry> {
    if es == [] then []
    else (if es[0].stat.mtime == m then [es[0]] else []) + WithMtime(es[1..], m)
  }

  lemma WithMtimeCons(x: Entry, es: seq<Entry>, m: int)
    ensures WithMtime([x] + es, m) == (if x.stat.mtime == m then [x] else []) + WithMtime(es, m)
  {
    assert ([x] + es)[1..] == es;
  }

  /** Insertion passes only strictly newer entries, so it puts `e` in front of
      every entry with its own time. */
  lemma {:induction false} InsertStable(e: Entry, es: seq<Entry>, m: int)
    ensures WithMtime(InsertByMtime(e, es), m) == (if e.stat.mtime == m then [e] else []) + WithMtime(es, m)
  {
    if es == [] || e.stat.mtime >= es[0].stat.mtime {
      WithMtimeCons(e, es, m);
    } else {
      var t := InsertByMtime(e, es[1..]);
      InsertStable(e, es[1..], m);
      WithMtimeCons(es[0], t, m);
      WithMtimeCons(es[0], es[1..], m);
      assert [es[0]] + es[1..] == es;
    }
  }

  /** The sort is stable, as `Array.prototype.sort` is: entries with the same
      time keep their listing order. */
  lemma {:induction false} SortStable(es: seq<Entry>, m: int)
    ensures WithMtime(SortByMtime(es), m) == WithMtime(es, m)
  {
    if es != [] {
      SortStable(es[1..], m);
      InsertStable(es[0], SortByMtime(es[1..]), m);
    }
  }

  // ---------------------------------------------------------------------
  // Which files survive
  // ---------------------------------------------------------------------

  function Files(es: seq<Entry>): seq<string> {
    seq(|es|, i requires 0 <= i < |es| => es[i].file)
  }

  function WeekKeys(es: seq<Entry>): seq<string> {
    seq(|es|, i requires 0 <= i < |es| => WeekKey(es[i].stat))
  }

  /** The names of the files of `es`. */
  function FileSet(es: seq<Entry>): set<string> {
    if es == [] then {} else FileSet(es[..|es| - 1]) + {es[|es| - 1].file}
  }

  lemma {:induction false} FileSetMeaning(es: seq<Entry>)
    ensures forall x :: x in FileSet(es) <==> x in Files(es)
  {
    if es != [] {
      var p := es[..|es| - 1];
      FileSetMeaning(p);
      assert Files(es) == Files(p) + [es[|es| - 1].file];
    }
  }

  /** How many files `fileStats.slice(0, Math.max(count, 0))` holds. */
  function NewestCount(count: int, n: nat): (m: nat)
    ensures m <= n
  {
    if count <= 0 then 0 else Min(count, n)
  }

  /** The `weeks` greatest of the distinct `keys` (the entries of `byWeek`, sorted). */
  function TopWeeks(keys: seq<string>, weeks: int): seq<string> {
    var sorted := SortDescending(Dedup(keys));
    sorted[..NewestCount(weeks, |sorted|)]
  }

  /** The first (newest) entry with a key: the one `byWeek` keeps. */
  function NewestOfWeek(ranked: seq<Entry>, keys: seq<string>, key: string): Entry
    requires |keys| == |ranked| && key in keys
  {
    ranked[FirstIndex(keys, key)]
  }

  /** The newest file of each week of `ks`. */
  function WeekFiles(ranked: seq<Entry>, keys: seq<string>, ks: seq<string>): set<string>
    requires |keys| == |ranked|
  {
    if ks == [] then {}
    else
      var k := ks[|ks| - 1];
      WeekFiles(ranked, keys, ks[..|ks| - 1]) + (if k in keys then {NewestOfWeek(ranked, keys, k).file} else {})
  }

  lemma {:induction false} WeekFilesMeaning(ranked: seq<Entry>, keys: seq<string>, ks: seq<string>)
    requires |keys| == |ranked|
    ensures forall k :: k in ks && k in keys ==> NewestOfWeek(ranked, keys, k).file in WeekFiles(ranked, keys, ks)
  {
    if ks != [] {
      var p := ks[..|ks| - 1];
      WeekFilesMeaning(ranked, keys, p);
      assert ks == p + [ks[|ks| - 1]];
    }
  }

  /** The `keep` set. */
  function Kept(ranked: seq<Entry>, count: int, weeks: int): set<string> {
    var keys := WeekKeys(ranked);
    FileSet(ranked[..NewestCount(count, |ranked|)])
      + (if weeks > 0 then WeekFiles(ranked, keys, TopWeeks(keys, weeks)) else {})
  }

  /** The files of `es` not in `keep`, in order. */
  function Unkept(es: seq<Entry>, keep: set<string>): seq<string> {
    if es == [] then []
    else
      var last := es[|es| - 1];
      Unkept(es[..|es| - 1], keep) + (if last.file in keep then [] else [last.file])
  }

  lemma {:induction false} UnkeptMeaning(es: seq<Entry>, keep: set<string>)
    ensures forall x :: x in Unkept(es, keep) <==> x !in keep && x in Files(es)
  {
    if es != [] {
      var p := es[..|es| - 1];
      UnkeptMeaning(p, keep);
      assert Files(es) == Files(p) + [es[|es| - 1].file];
    }
  }

  /** The `.zip` names of a listing. */
  function Zips(names: seq<string>): (r: seq<string>)
    ensures forall i :: 0 <= i < |r| ==> EndsWith(r[i], ".zip") && r[i] in names
    ensures forall i :: 0 <= i < |names| && EndsWith(names[i], ".zip") ==> names[i] in r
  {
    if names == [] then []
    else
      var p := Zips(names[..|names| - 1]);
      assert forall i :: 0 <= i < |names| - 1 ==> names[..|names| - 1][i] == names[i];
      if EndsWith(names[|names| - 1], ".zip") then p + [names[|names| - 1]] else p
  }

  datatype LocalError = MkdirFailed | WriteFailed | MarkerFailed | ReaddirFailed | StatFailed

  /** Every `.zip` file has a status. */
  predicate AllStatted(files: seq<string>, stats: map<string, Stat>) {
    forall i :: 0 <= i < |files| ==> files[i] in stats
  }

  /** The files `fileStats` holds, in listing order. */
  function Statted(files: seq<string>, stats: map<string, Stat>): (es: seq<Entry>)
    requires AllStatted(files, stats)
    ensures Files(es) == files
  {
    seq(|files|, i requires 0 <= i < |files| => Entry(files[i], stats[files[i]]))
  }

  /** `fileStats` after the sort. */
  function Ranked(files: seq<string>, stats: map<string, Stat>): seq<Entry>
    requires AllStatted(files, stats)
  {
    SortByMtime(Statted(files, stats))
  }

  /** `pruneLocalBackups`: the files it deletes, newest first, or the error of a
      failed `readdir` (`listing` is `None`) or `stat`. */
  function Pruned(listing: Option<seq<string>>, stats: map<string, Stat>, count: int, weeks: int)
    : Result<seq<string>, LocalError>
  {
    if count <= 0 && weeks <= 0 then Ok([])
    else if listing.None? then Err(ReaddirFailed)
    else
      var files := Zips(listing.value);
      if files == [] then Ok([])
      else if !AllStatted(files, stats) then Err(StatFailed)
      else Ok(Doomed(files, stats, count, weeks))
  }

  /** The names deleted among the statted `.zip` files `files`. */
  function Doomed(files: seq<string>, stats: map<string, Stat>, count: int, weeks: int): seq<string>
    requires AllStatted(files, stats)
  {
    var ranked := Ranked(files, stats);
    Unkept(ranked, Kept(ranked, count, weeks))
  }

  // ---------------------------------------------------------------------
  // The pruning loops
  // ---------------------------------------------------------------------

  /** `byWeek` after the loop has seen `keys[..j]`: each key first met maps to its entry. */
  ghost predicate ByWeekSoFar(ranked: seq<Entry>, keys: seq<string>, j: int, byWeek: map<string, Entry>, order: seq<string>)
    requires |keys| == |ranked| && 0 <= j <= |keys|
  {
    && order == Dedup(keys[..j])
    && (forall k :: k in byWeek <==> k in keys[..j])
    && (forall k :: k in byWeek ==> k in keys && byWeek[k] == NewestOfWeek(ranked, keys, k))
  }

  /** A key `byWeek` already holds leaves it and the key order as they are. */
  lemma ByWeekSeen(ranked: seq<Entry>, keys: seq<string>, j: int, byWeek: map<string, Entry>, order: seq<string>)
    requires |keys| == |ranked| && 0 <= j < |keys| && ByWeekSoFar(ranked, keys, j, byWeek, order)
    requires keys[j] in byWeek
    ensures ByWeekSoFar(ranked, keys, j + 1, byWeek, order)
  {
    var key := keys[j];
    assert keys[..j + 1] == keys[..j] + [key];
    assert keys[..j + 1][..j] == keys[..j];
    assert key in keys[..j];
    assert Dedup(keys[..j + 1]) == Dedup(keys[..j]);
  }

  /** A new key maps to the entry that first has it. */
  lemma ByWeekNew(ranked: seq<Entry>, keys: seq<string>, j: int, byWeek: map<string, Entry>, order: seq<string>)
    requires |keys| == |ranked| && 0 <= j < |keys| && ByWeekSoFar(ranked, keys, j, byWeek, order)
    requires keys[j] !in byWeek
    ensures ByWeekSoFar(ranked, keys, j + 1, byWeek[keys[j] := ranked[j]], order + [keys[j]])
  {
    var key := keys[j];
    assert keys[..j + 1] == keys[..j] + [key];
    assert keys[..j + 1][..j] == keys[..j];
    assert key !in keys[..j];
    assert key !in Dedup(keys[..j]);
    assert Dedup(keys[..j + 1]) == Dedup(keys[..j]) + [key];
    FirstIndexAtMost(keys, key, j);
    assert FirstIndex(keys, key) == j;
  }

  /** The newest files loop: `keep` holds the first `i` files. */
  method KeepNewest(ranked: seq<Entry>, count: int) returns (keep: set<string>)
    ensures keep == FileSet(ranked[..NewestCount(count, |ranked|)])
  {
    keep := {};
    var newest := NewestCount(count, |ranked|);
    var i := 0;
    while i < newest
      invariant 0 <= i <= newest
      invariant keep == FileSet(ranked[..i])
    {
      assert ranked[..i + 1][..i] == ranked[..i];
      keep := keep + {ranked[i].file};
      i := i + 1;
    }
  }

  /** The `byWeek` loop and the sort of its keys: the newest file of each of
      the `weeks` greatest weeks. */
  method KeepWeekly(ranked: seq<Entry>, keys: seq<string>, weeks: int) returns (keep: set<string>)
    requires |keys| == |ranked| && weeks > 0
    ensures keep == WeekFiles(ranked, keys, TopWeeks(keys, weeks))
  {
    var byWeek, order := GroupByWeek(ranked, keys);
    var sorted := SortDescending(order);
    var top := sorted[..Min(weeks, |sorted|)];
    assert top == TopWeeks(keys, weeks);
    forall x | x in top ensures x in byWeek {
      assert x in multiset(sorted);
      assert x in multiset(order);
    }
    keep := NewestOfEach(ranked, keys, byWeek, top);
  }

  /** The loop over the sorted weeks: each one's entry goes into `keep`. */
  method NewestOfEach(ranked: seq<Entry>, keys: seq<string>, byWeek: map<string, Entry>, top: seq<string>)
    returns (keep: set<string>)
    requires |keys| == |ranked|
    requires forall k :: k in byWeek ==> k in keys && byWeek[k] == NewestOfWeek(ranked, keys, k)
    requires forall x :: x in top ==> x in byWeek
    ensures keep == WeekFiles(ranked, keys, top)
  {
    keep := {};
    var t := 0;
    while t < |top|
      invariant 0 <= t <= |top|
      invariant keep == WeekFiles(ranked, keys, top[..t])
    {
      assert top[..t + 1][..t] == top[..t];
      keep := keep + {byWeek[top[t]].file};
      t := t + 1;
    }
    assert top[..t] == top;
  }

  /** The `byWeek` loop: the first entry of each key, and the keys in the order first met. */
  method GroupByWeek(ranked: seq<Entry>, keys: seq<string>) returns (byWeek: map<string, Entry>, order: seq<string>)
    requires |keys| == |ranked|
    ensures order == Dedup(keys)
    ensures forall k :: k in byWeek <==> k in keys
    ensures forall k :: k in byWeek ==> byWeek[k] == NewestOfWeek(ranked, keys, k)
  {
    byWeek := map[];
    order := [];
    var j := 0;
    while j < |ranked|
      invariant 0 <= j <= |ranked|
      invariant ByWeekSoFar(ranked, keys, j, byWeek, order)
    {
      var key := keys[j];
      if key !in byWeek {
        ByWeekNew(ranked, keys, j, byWeek, order);
        byWeek := byWeek[key := ranked[j]];
        order := order + [key];
      } else {
        ByWeekSeen(ranked, keys, j, byWeek, order);
      }
      j := j + 1;
    }
    assert keys[..j] == keys;
  }

  /** The files not kept, in sorted order. */
  method Unkeep(ranked: seq<Entry>, keep: set<string>) returns (toDelete: seq<string>)
    ensures toDelete == Unkept(ranked, keep)
  {
    toDelete := [];
    var j := 0;
    while j < |ranked|
      invariant 0 <= j <= |ranked|
      invariant toDelete == Unkept(ranked[..j], keep)
    {
      assert ranked[..j + 1][..j] == ranked[..j];
      assert ranked[..j + 1][j] == ranked[j];
      if ranked[j].file !in keep {
        toDelete := toDelete + [ranked[j].file];
      }
      j := j + 1;
    }
    assert ranked[..j] == ranked;
  }

  /** The selection of `pruneLocalBackups`, once the files are statted and sorted. */
  method SelectDoomed(ranked: seq<Entry>, count: int, weeks: int) returns (toDelete: seq<string>)
    ensures toDelete == Unkept(ranked, Kept(ranked, count, weeks))
  {
    var keep := KeepNewest(ranked, count);
    var keys := WeekKeys(ranked);
    if weeks > 0 {
      var weekly := KeepWeekly(ranked, keys, weeks);
      keep := keep + weekly;
    }
    assert keep == Kept(ranked, count, weeks);
    toDelete := Unkeep(ranked, keep);
  }

  /** `pruneLocalBackups(dir, count, weeks)`: the names it deletes, given the
      directory listing and the status of each file. */
  method PruneLocalBackups(listing: Option<seq<string>>, stats: map<string, Stat>, count: int, weeks: int)
    returns (r: Result<seq<string>, LocalError>)
    ensures r == Pruned(listing, stats, count, weeks)
    ensures count <= 0 && weeks <= 0 ==> r == Ok([])
  {
    if count <= 0 && weeks <= 0 {
      return Ok([]);
    }
    if listing.None? {
      return Err(ReaddirFailed);
    }
    var files := Zips(listing.value);
    if |files| == 0 {
      return Ok([]);
    }
    if !AllStatted(files, stats) {
      return Err(StatFailed);
    }
    var fileStats := SortByMtime(Statted(files, stats));
    var toDelete := SelectDoomed(fileStats, count, weeks);
    return Ok(toDelete);
  }

  // ---------------------------------------------------------------------
  // What pruning keeps
  // ---------------------------------------------------------------------

  /** Sorting keeps exactly the listed files. */
  lemma RankedFiles(files: seq<string>, stats: map<string, Stat>)
    requires AllStatted(files, stats)
    ensures |Ranked(files, stats)| == |files|
    ensures forall x :: x in Files(Ranked(files, stats)) <==> x in files
  {
    var st := Statted(files, stats);
    var r := Ranked(files, stats);
    forall x | x in Files(r) ensures x in files {
      var i :| 0 <= i < |r| && Files(r)[i] == x;
      assert r[i] in multiset(st);
      var j :| 0 <= j < |st| && st[j] == r[i];
      assert Files(st)[j] == x;
    }
    forall x | x in files ensures x in Files(r) {
      var j :| 0 <= j < |files| && files[j] == x;
      assert st[j] in multiset(r);
      var i :| 0 <= i < |r| && r[i] == st[j];
      assert Files(r)[i] == x;
    }
  }

  /** With a listing and every status, pruning deletes `Doomed` (also when there is no `.zip` file). */
  lemma PrunedIsDoomed(listing: Option<seq<string>>, stats: map<string, Stat>, count: int, weeks: int)
    requires listing.Some? && !(count <= 0 && weeks <= 0) && AllStatted(Zips(listing.value), stats)
    ensures Pruned(listing, stats, count, weeks) == Ok(Doomed(Zips(listing.value), stats, count, weeks))
  {
    if Zips(listing.value) == [] {
      assert Ranked(Zips(listing.value), stats) == [];
    }
  }

  /** Only listed files are deleted. */
  lemma DoomedListed(files: seq<string>, stats: map<string, Stat>, count: int, weeks: int)
    requires AllStatted(files, stats)
    ensures forall x :: x in Doomed(files, stats, count, weeks) ==> x in files
  {
    var ranked := Ranked(files, stats);
    UnkeptMeaning(ranked, Kept(ranked, count, weeks));
    RankedFiles(files, stats);
  }

  /** Only `.zip` files of the listing are ever deleted. */
  lemma PrunedOnlyZips(listing: Option<seq<string>>, stats: map<string, Stat>, count: int, weeks: int)
    requires Pruned(listing, stats, count, weeks).Ok?
    ensures forall x :: x in Pruned(listing, stats, count, weeks).value ==>
              listing.Some? && x in listing.value && EndsWith(x, ".zip")
  {
    if !(count <= 0 && weeks <= 0) && listing.Some? {
      var files := Zips(listing.value);
      if files != [] {
        DoomedListed(files, stats, count, weeks);
      }
    }
  }

  /** A file is deleted exactly when it is not kept. */
  lemma DoomedPartition(files: seq<string>, stats: map<string, Stat>, count: int, weeks: int)
    requires AllStatted(files, stats)
    ensures forall x :: x in files ==>
              (x in Doomed(files, stats, count, weeks) <==> x !in Kept(Ranked(files, stats), count, weeks))
  {
    var ranked := Ranked(files, stats);
    UnkeptMeaning(ranked, Kept(ranked, count, weeks));
    RankedFiles(files, stats);
  }

  /** The newest `count` files survive, and whatever is deleted ranks after them,
      so it is no newer than any of them. */
  lemma DoomedSparesNewest(files: seq<string>, stats: map<string, Stat>, count: int, weeks: int)
    requires AllStatted(files, stats)
    ensures var ranked := Ranked(files, stats);
            var m := NewestCount(count, |ranked|);
            && (forall i :: 0 <= i < m ==> ranked[i].file !in Doomed(files, stats, count, weeks))
            && (forall x :: x in Doomed(files, stats, count, weeks) ==>
                  exists j :: m <= j < |ranked| && ranked[j].file == x
                    && forall i :: 0 <= i < m ==> ranked[j].stat.mtime <= ranked[i].stat.mtime)
  {
    var ranked := Ranked(files, stats);
    var m := NewestCount(count, |ranked|);
    var keep := Kept(ranked, count, weeks);
    var d := Doomed(files, stats, count, weeks);
    UnkeptMeaning(ranked, keep);
    FileSetMeaning(ranked[..m]);
    forall i | 0 <= i < m ensures ranked[i].file in keep {
      assert Files(ranked[..m])[i] == ranked[i].file;
    }
    forall x | x in d
      ensures exists j :: m <= j < |ranked| && ranked[j].file == x
                && forall i :: 0 <= i < m ==> ranked[j].stat.mtime <= ranked[i].stat.mtime
    {
      assert x in Files(ranked) && x !in keep;
      var j :| 0 <= j < |ranked| && Files(ranked)[j] == x;
      assert ranked[j].file == x;
      assert j >= m;
    }
  }

  /** The newest file of each of the `weeks` greatest week keys survives. */
  lemma DoomedSparesWeekly(files: seq<string>, stats: map<string, Stat>, count: int, weeks: int)
    requires AllStatted(files, stats) && weeks > 0
    ensures var ranked := Ranked(files, stats);
            var keys := WeekKeys(ranked);
            forall k :: k in TopWeeks(keys, weeks) ==>
              k in keys && NewestOfWeek(ranked, keys, k).file !in Doomed(files, stats, count, weeks)
  {
    var ranked := Ranked(files, stats);
    var keys := WeekKeys(ranked);
    var top := TopWeeks(keys, weeks);
    UnkeptMeaning(ranked, Kept(ranked, count, weeks));
    WeekFilesMeaning(ranked, keys, top);
    forall k | k in top ensures k in keys {
      TopWeeksFromKeys(keys, weeks, k);
    }
  }

  lemma TopWeeksFromKeys(keys: seq<string>, weeks: int, k: string)
    requires k in TopWeeks(keys, weeks)
    ensures k in keys
  {
    var sorted := SortDescending(Dedup(keys));
    assert k in sorted;
    assert k in multiset(Dedup(keys));
  }

  /** The chosen weeks are the greatest keys: every other key is below each of them. */
  lemma TopWeeksGreatest(keys: seq<string>, weeks: int)
    ensures forall k, k' :: k in TopWeeks(keys, weeks) && k' in keys && k' !in TopWeeks(keys, weeks) ==> Below(k', k)
    ensures |TopWeeks(keys, weeks)| == NewestCount(weeks, |Dedup(keys)|)
  {
    var d := Dedup(keys);
    var sorted := SortDescending(d);
    var top := TopWeeks(keys, weeks);
    assert |sorted| == |multiset(d)| == |d|;
    forall k, k' | k in top && k' in keys && k' !in top ensures Below(k', k) {
      var i :| 0 <= i < |top| && top[i] == k;
      assert k' in d;
      assert k' in multiset(sorted);
      var j :| 0 <= j < |sorted| && sorted[j] == k';
    }
  }

  /** The entry kept for a week is the newest file of that week. */
  lemma NewestOfWeekIsNewest(ranked: seq<Entry>, keys: seq<string>, i: int)
    requires NewestFirst(ranked) && |keys| == |ranked| && 0 <= i < |ranked|
    ensures NewestOfWeek(ranked, keys, keys[i]).stat.mtime >= ranked[i].stat.mtime
  {
    FirstIndexAtMost(keys, keys[i], i);
  }

  /** Sorting keeps distinct names distinct. */
  lemma RankedDistinct(files: seq<string>, stats: map<string, Stat>)
    requires AllStatted(files, stats) && Distinct(files)
    ensures Distinct(Files(Ranked(files, stats)))
  {
    var st := Statted(files, stats);
    var r := Ranked(files, stats);
    assert Distinct(st) by {
      forall i, j | 0 <= i < j < |st| ensures st[i] != st[j] {
        assert Files(st)[i] == files[i];
      }
    }
    DistinctPermutation(st, r);
    forall i, j | 0 <= i < j < |r| ensures Files(r)[i] != Files(r)[j] {
      assert r[i] in multiset(st);
      assert r[j] in multiset(st);
      var a :| 0 <= a < |st| && st[a] == r[i];
      var b :| 0 <= b < |st| && st[b] == r[j];
      assert Files(st)[a] == files[a] && Files(st)[b] == files[b];
    }
  }

  lemma {:induction false} ZipsDistinct(names: seq<string>)
    requires Distinct(names)
    ensures Distinct(Zips(names))
  {
    if names != [] {
      var p := names[..|names| - 1];
      assert Distinct(p);
      ZipsDistinct(p);
    }
  }

  /** Without the newest `m`, the remaining distinct files all go, in order. */
  lemma {:induction false} UnkeptAfterNewest(ranked: seq<Entry>, m: nat, j: nat)
    requires Distinct(Files(ranked)) && m <= |ranked| && j <= |ranked|
    ensures Unkept(ranked[..j], FileSet(ranked[..m])) == Files(ranked)[Min(m, j)..j]
  {
    if j > 0 {
      UnkeptAfterNewest(ranked, m, j - 1);
      var keep := FileSet(ranked[..m]);
      var f := ranked[j - 1].file;
      assert f in keep <==> j - 1 < m by {
        FileSetMeaning(ranked[..m]);
        assert Files(ranked[..m]) == Files(ranked)[..m];
        assert Files(ranked)[j - 1] == f;
      }
      assert Unkept(ranked[..j], keep) == Unkept(ranked[..j - 1], keep) + (if f in keep then [] else [f]) by {
        assert ranked[..j][..j - 1] == ranked[..j - 1];
      }
      if j - 1 >= m {
        assert Files(ranked)[m..j] == Files(ranked)[m..j - 1] + [f];
      }
    }
  }

  /** With only a count, exactly the newest `count` files remain (each named once). */
  lemma DoomedCountOnly(files: seq<string>, stats: map<string, Stat>, count: int, weeks: int)
    requires AllStatted(files, stats) && Distinct(files) && count > 0 && weeks <= 0
    ensures var m := Min(count, |files|);
            && Doomed(files, stats, count, weeks) == Files(Ranked(files, stats))[m..]
            && |files| - |Doomed(files, stats, count, weeks)| == m
  {
    var ranked := Ranked(files, stats);
    var m := Min(count, |files|);
    assert |ranked| == |files|;
    assert Kept(ranked, count, weeks) == FileSet(ranked[..m]);
    assert Doomed(files, stats, count, weeks) == Unkept(ranked[..|ranked|], FileSet(ranked[..m])) by {
      assert ranked[..|ranked|] == ranked;
    }
    RankedDistinct(files, stats);
    UnkeptAfterNewest(ranked, m, |ranked|);
  }

  /** Pruning a listing with only a count leaves exactly the newest `count` backups. */
  lemma PrunedCountOnly(listing: Option<seq<string>>, stats: map<string, Stat>, count: int, weeks: int)
    requires listing.Some? && Distinct(listing.value) && count > 0 && weeks <= 0
    requires AllStatted(Zips(listing.value), stats)
    ensures Pruned(listing, stats, count, weeks).Ok?
    ensures var files := Zips(listing.value);
            |files| - |Pruned(listing, stats, count, weeks).value| == Min(count, |files|)
  {
    PrunedIsDoomed(listing, stats, count, weeks);
    ZipsDistinct(listing.value);
    DoomedCountOnly(Zips(listing.value), stats, count, weeks);
  }

  // ---------------------------------------------------------------------
  // writeLocalBackup
  // ---------------------------------------------------------------------

  /** `ts`: the timestamp given, else the basic-format ISO time without its colons. */
  function LocalStamp(timestamp: Option<string>, isoBasic: string): (ts: string)
    ensures timestamp.None? || timestamp.value == "" ==> ':' !in ts
  {
    if timestamp.Some? && timestamp.value != "" then timestamp.value else Replace(isoBasic, ':', "")
  }

  /** `${budgetId || "budget"}-${ts}.zip` */
  function BackupName(budgetId: Option<string>, ts: string): string {
    (if budgetId.Some? && budgetId.value != "" then budgetId.value else "budget") + "-" + ts + ".zip"
  }

  /** The new backup is one of the files pruning looks at. */
  lemma BackupNameIsZip(budgetId: Option<string>, ts: string)
    ensures EndsWith(BackupName(budgetId, ts), ".zip")
    ensures Zips([BackupName(budgetId, ts)]) == [BackupName(budgetId, ts)]
  {
    var n := BackupName(budgetId, ts);
    assert n[|n| - 4..] == ".zip";
    var none: seq<string> := [];
    assert [n][..0] == none;
  }

  /** `path.join(path.dirname(outputDir), ".last-success")` */
  function MarkerPath(outputDir: string): string {
    JoinPath(Dirname(outputDir), ".last-success")
  }

  /** The marker goes beside the output directory, in its parent. */
  lemma MarkerBesideOutput(parent: string, leaf: string)
    requires parent != "" && parent[|parent| - 1] != '/'
    requires leaf != "" && '/' !in leaf
    ensures MarkerPath(JoinPath(parent, leaf)) == JoinPath(parent, ".last-success")
  {
    DirnameOfJoin(parent, leaf);
  }

  /** What the file system answers: whether `mkdir`, the backup write and the
      marker write succeed, the `readdir` listing (`None` when it fails) and
      the status of each file. */
  datatype LocalDisk = LocalDisk(
    mkdirOk: bool, writeOk: bool, markerOk: bool,
    listing: Option<seq<string>>, stats: map<string, Stat>)

  /** A file-system call: the backup bytes are opaque; the marker holds seconds since the epoch. */
  datatype FsOp =
    | MakeDir(path: string)
    | WriteBackup(path: string)
    | WriteMarker(path: string, seconds: string)
    | Unlink(path: string)

  /** The `unlink` calls for the files pruning deletes; a failed one is only logged. */
  function Unlinks(dir: string, doomed: seq<string>): (ops: seq<FsOp>)
    ensures |ops| == |doomed|
    ensures forall i :: 0 <= i < |doomed| ==> ops[i] == Unlink(JoinPath(dir, doomed[i]))
  {
    seq(|doomed|, i requires 0 <= i < |doomed| => Unlink(JoinPath(dir, doomed[i])))
  }

  /** `writeLocalBackup(buffer, options)`: create the directory, write the
      backup, write the marker, prune; the result is the backup's path. */
  method WriteLocalBackup(
    outputDir: string, count: int, weeks: int, budgetId: Option<string>, timestamp: Option<string>,
    isoBasic: string, nowMs: int, disk: LocalDisk)
    returns (r: Result<string, LocalError>, ops: seq<FsOp>)
    ensures var filePath := JoinPath(outputDir, BackupName(budgetId, LocalStamp(timestamp, isoBasic)));
            var marker := WriteMarker(MarkerPath(outputDir), DecimalString(nowMs / 1000));
            var pruned := Pruned(disk.listing, disk.stats, count, weeks);
            && (!disk.mkdirOk ==> r == Err(MkdirFailed) && ops == [MakeDir(outputDir)])
            && (disk.mkdirOk && !disk.writeOk ==>
                  r == Err(WriteFailed) && ops == [MakeDir(outputDir), WriteBackup(filePath)])
            && (disk.mkdirOk && disk.writeOk && !disk.markerOk ==>
                  r == Err(MarkerFailed) && ops == [MakeDir(outputDir), WriteBackup(filePath), marker])
            && (disk.mkdirOk && disk.writeOk && disk.markerOk && pruned.Err? ==>
                  r == Err(pruned.error) && ops == [MakeDir(outputDir), WriteBackup(filePath), marker])
            && (disk.mkdirOk && disk.writeOk && disk.markerOk && pruned.Ok? ==>
                  r == Ok(filePath)
                  && ops == [MakeDir(outputDir), WriteBackup(filePath), marker] + Unlinks(outputDir, pruned.value))
  {
    if !disk.mkdirOk {
      return Err(MkdirFailed), [MakeDir(outputDir)];
    }
    var ts := LocalStamp(timestamp, isoBasic);
    var filePath := JoinPath(outputDir, BackupName(budgetId, ts));
    if !disk.writeOk {
      return Err(WriteFailed), [MakeDir(outputDir), WriteBackup(filePath)];
    }
    var written := [MakeDir(outputDir), WriteBackup(filePath), WriteMarker(MarkerPath(outputDir), DecimalString(nowMs / 1000))];
    if !disk.markerOk {
      return Err(MarkerFailed), written;
    }
    var pruned := PruneLocalBackups(disk.listing, disk.stats, count, weeks);
    if pruned.Err? {
      return Err(pruned.error), written;
    }
    return Ok(filePath), written + Unlinks(outputDir, pruned.value);
  }
}
