/** The AI routes of the backend: the data summary handed to the language
    model (`_get_data_context`), the message list of a chat request, and the
    post-processing of the model's answers for insights and predictions.

    The language-model call and `json.loads` are not modelled: the model's
    answer is an input, and JSON parsing is a partial function passed in as a
    parameter (None where `json.loads` raises `JSONDecodeError`). The data
    summary is a value; `json.dumps` of it is the `context` string input. */
module AiRoutes {
  import opened Wrappers
  import opened Text
  import opened MockData

  // ---- exact-match counts ------------------------------------------------------

  /** `sum(1 for c in contacts if c["resultado_gestion"] == r)`. */
  function CountResult(cs: seq<Contact>, r: string): (n: nat)
    ensures n <= |cs|
    decreases |cs|
  {
    if |cs| == 0 then 0
    else CountResult(cs[..|cs| - 1], r) + (if cs[|cs| - 1].resultado == r then 1 else 0)
  }

  /** The results of the contacts, in order. */
  function ResultsOf(cs: seq<Contact>): (rs: seq<string>)
    ensures |rs| == |cs| && forall i :: 0 <= i < |cs| ==> rs[i] == cs[i].resultado
  {
    seq(|cs|, i requires 0 <= i < |cs| => cs[i].resultado)
  }

  /** The count is the multiplicity of `r` among the contacts' results. */
  lemma {:induction false} CountResultIsMultiplicity(cs: seq<Contact>, r: string)
    ensures CountResult(cs, r) == multiset(ResultsOf(cs))[r]
    decreases |cs|
  {
    if |cs| > 0 {
      var k := |cs| - 1;
      CountResultIsMultiplicity(cs[..k], r);
      assert ResultsOf(cs) == ResultsOf(cs[..k]) + [cs[k].resultado];
    }
  }

  /** When every result is one of the three known values, the three counts add
      up to the number of contacts. */
  lemma {:induction false} CountsPartition(cs: seq<Contact>)
    requires forall i :: 0 <= i < |cs| ==> IsResultado(cs[i].resultado)
    ensures CountResult(cs, NoContactado) + CountResult(cs, Contactado) + CountResult(cs, Efectivo) == |cs|
    decreases |cs|
  {
    if |cs| > 0 {
      CountsPartition(cs[..|cs| - 1]);
    }
  }

  datatype ContextKpis = ContextKpis(totalLeads: nat, contactados: nat, noContactados: nat, contactoEfectivo: nat)

  /** The `kpis` part of the summary. */
  function SummaryKpis(cs: seq<Contact>): (k: ContextKpis)
    ensures k.totalLeads == |cs|
    ensures k.contactados <= |cs| && k.noContactados <= |cs| && k.contactoEfectivo <= |cs|
  {
    ContextKpis(|cs|, CountResult(cs, Contactado), CountResult(cs, NoContactado), CountResult(cs, Efectivo))
  }

  // ---- Counter(...).most_common(n) ----------------------------------------------

  ghost predicate Distinct<T>(s: seq<T>)
  {
    forall i, j :: 0 <= i < j < |s| ==> s[i] != s[j]
  }

  /** The distinct values of `xs` in order of first occurrence (the key order of
      a `Counter`). */
  function Keys(xs: seq<string>): (ks: seq<string>)
    ensures Distinct(ks)
    ensures forall x :: x in ks <==> x in xs
    decreases |xs|
  {
    if |xs| == 0 then []
    else
      var prev := Keys(xs[..|xs| - 1]);
      var x := xs[|xs| - 1];
      if x in prev then prev else prev + [x]
  }

  /** A value and how often it occurs. */
  datatype Tally = Tally(key: string, count: nat)

  /** The items of `Counter(xs)`, in key order. */
  function Tallies(xs: seq<string>): (ts: seq<Tally>)
    ensures |ts| == |Keys(xs)|
    ensures forall i :: 0 <= i < |ts| ==> ts[i] == Tally(Keys(xs)[i], multiset(xs)[Keys(xs)[i]])
  {
    var ks := Keys(xs);
    seq(|ks|, i requires 0 <= i < |ks| => Tally(ks[i], multiset(xs)[ks[i]]))
  }

  predicate Descending(s: seq<Tally>)
  {
    forall i, j :: 0 <= i < j < |s| ==> s[i].count >= s[j].count
  }

  /** Places `t` after every entry counted at least as often: the insertion step
      of a stable sort by decreasing count. */
  function Insert(t: Tally, s: seq<Tally>): (r: seq<Tally>)
    ensures |r| == |s| + 1
    decreases |s|
  {
    if |s| == 0 then [t]
    else if s[0].count >= t.count then [s[0]] + Insert(t, s[1..])
    else [t] + s
  }

  /** Inserting adds exactly the one entry. */
  lemma {:induction false} InsertPermutes(t: Tally, s: seq<Tally>)
    ensures multiset(Insert(t, s)) == multiset(s) + multiset{t}
    decreases |s|
  {
    if |s| > 0 && s[0].count >= t.count {
      InsertPermutes(t, s[1..]);
      assert s == [s[0]] + s[1..];
    }
  }

  /** The first entry after an insertion is the inserted one or the old first one. */
  lemma InsertHead(t: Tally, s: seq<Tally>)
    ensures Insert(t, s)[0] == t || (|s| > 0 && Insert(t, s)[0] == s[0])
  {
  }

  /** Inserting into a list ordered by decreasing count keeps it ordered. */
  lemma {:induction false} InsertSorted(t: Tally, s: seq<Tally>)
    requires Descending(s)
    ensures Descending(Insert(t, s))
    decreases |s|
  {
    if |s| > 0 && s[0].count >= t.count {
      var tail := s[1..];
      var r := Insert(t, tail);
      assert Descending(tail);
      InsertSorted(t, tail);
      InsertHead(t, tail);
      assert s[0].count >= r[0].count by {
        if |tail| > 0 {
          assert tail[0] == s[1];
        }
      }
      assert Insert(t, s) == [s[0]] + r;
    }
  }

  /** `sorted(ts, key=count, reverse=True)`: stable, largest count first. */
  function SortDesc(ts: seq<Tally>): (r: seq<Tally>)
    ensures |r| == |ts|
    decreases |ts|
  {
    if |ts| == 0 then [] else Insert(ts[|ts| - 1], SortDesc(ts[..|ts| - 1]))
  }

  /** The sort orders by decreasing count. */
  lemma {:induction false} SortDescOrdered(ts: seq<Tally>)
    ensures Descending(SortDesc(ts))
    decreases |ts|
  {
    if |ts| > 0 {
      var k := |ts| - 1;
      SortDescOrdered(ts[..k]);
      InsertSorted(ts[k], SortDesc(ts[..k]));
    }
  }

  /** The sort keeps every entry, and adds none. */
  lemma {:induction false} SortDescPermutes(ts: seq<Tally>)
    ensures multiset(SortDesc(ts)) == multiset(ts)
    decreases |ts|
  {
    if |ts| > 0 {
      SortDescPermutes(ts[..|ts| - 1]);
      SortDescStep(ts);
    }
  }

  lemma SortDescStep(ts: seq<Tally>)
    requires |ts| > 0
    requires multiset(SortDesc(ts[..|ts| - 1])) == multiset(ts[..|ts| - 1])
    ensures multiset(SortDesc(ts)) == multiset(ts)
  {
    var prev := SortDesc(ts[..|ts| - 1]);
    InsertPermutes(ts[|ts| - 1], prev);
    PermutesSnoc(ts, prev, SortDesc(ts));
  }

  lemma PermutesSnoc<T>(s: seq<T>, prev: seq<T>, r: seq<T>)
    requires |s| > 0 && multiset(prev) == multiset(s[..|s| - 1])
    requires multiset(r) == multiset(prev) + multiset{s[|s| - 1]}
    ensures multiset(r) == multiset(s)
  {
    assert s == s[..|s| - 1] + [s[|s| - 1]];
  }

  /** The entries counted exactly `c` times, in their order in `s`. */
  function WithCount(s: seq<Tally>, c: nat): seq<Tally>
    decreases |s|
  {
    if |s| == 0 then [] else (if s[0].count == c then [s[0]] else []) + WithCount(s[1..], c)
  }

  lemma {:induction false} WithCountSnoc(s: seq<Tally>, x: Tally, c: nat)
    ensures WithCount(s + [x], c) == WithCount(s, c) + (if x.count == c then [x] else [])
    decreases |s|
  {
    var last := if x.count == c then [x] else [];
    if |s| == 0 {
      assert s + [x] == [x];
      assert [x][1..] == [];
    } else {
      var t := s + [x];
      var head := if s[0].count == c then [s[0]] else [];
      assert t[0] == s[0];
      assert t[1..] == s[1..] + [x];
      WithCountSnoc(s[1..], x, c);
      assert WithCount(t, c) == head + (WithCount(s[1..], c) + last);
      assert WithCount(s, c) == head + WithCount(s[1..], c);
      SeqAssoc(head, WithCount(s[1..], c), last);
    }
  }

  lemma {:induction false} WithCountBelow(s: seq<Tally>, c: nat)
    requires forall i :: 0 <= i < |s| ==> s[i].count < c
    ensures WithCount(s, c) == []
    decreases |s|
  {
    if |s| > 0 {
      WithCountBelow(s[1..], c);
    }
  }

  /** Into a list ordered by decreasing count, `t` goes after every entry of
      its own count. */
  lemma {:induction false} InsertWithCount(t: Tally, s: seq<Tally>, c: nat)
    requires Descending(s)
    ensures WithCount(Insert(t, s), c) == WithCount(s, c) + (if t.count == c then [t] else [])
    decreases |s|
  {
    var last := if t.count == c then [t] else [];
    if |s| == 0 {
      assert Insert(t, s) == [t];
      assert [t][1..] == [];
    } else {
      var head := if s[0].count == c then [s[0]] else [];
      assert WithCount(s, c) == head + WithCount(s[1..], c);
      if s[0].count >= t.count {
        var r := Insert(t, s[1..]);
        assert Insert(t, s) == [s[0]] + r;
        assert ([s[0]] + r)[0] == s[0];
        assert ([s[0]] + r)[1..] == r;
        InsertWithCount(t, s[1..], c);
        assert WithCount(Insert(t, s), c) == head + (WithCount(s[1..], c) + last);
        SeqAssoc(head, WithCount(s[1..], c), last);
      } else {
        assert Insert(t, s) == [t] + s;
        assert ([t] + s)[0] == t;
        assert ([t] + s)[1..] == s;
        assert WithCount(Insert(t, s), c) == last + WithCount(s, c);
        if t.count == c {
          WithCountBelow(s, c);
        }
      }
    }
  }

  /** The sort is stable: entries of equal count keep their relative order. */
  lemma {:induction false} SortDescStable(ts: seq<Tally>, c: nat)
    ensures WithCount(SortDesc(ts), c) == WithCount(ts, c)
    decreases |ts|
  {
    if |ts| > 0 {
      var k := |ts| - 1;
      SortDescStable(ts[..k], c);
      SortDescOrdered(ts[..k]);
      InsertWithCount(ts[k], SortDesc(ts[..k]), c);
      WithCountSnoc(ts[..k], ts[k], c);
      assert ts == ts[..k] + [ts[k]];
    }
  }

  /** Values counted equally are listed in the order of their first occurrence,
      the key order of the `Counter`, as `most_common` lists ties. */
  lemma TiesInFirstOccurrence(xs: seq<string>, c: nat)
    ensures WithCount(SortDesc(Tallies(xs)), c) == WithCount(Tallies(xs), c)
  {
    SortDescStable(Tallies(xs), c);
  }

  /** `Counter(xs).most_common(n)`. */
  function MostCommon(xs: seq<string>, n: nat): seq<Tally>
  {
    var s := SortDesc(Tallies(xs));
    if |s| <= n then s else s[..n]
  }

  lemma {:induction false} DistinctAtMostOnce<T>(s: seq<T>, x: T)
    requires Distinct(s)
    ensures multiset(s)[x] <= 1
    decreases |s|
  {
    if |s| > 0 {
      var k := |s| - 1;
      assert s == s[..k] + [s[k]];
      DistinctAtMostOnce(s[..k], x);
      if s[k] == x {
        assert x !in s[..k];
      }
    }
  }

  lemma RepeatedTwice<T>(s: seq<T>, i: nat, j: nat)
    requires i < j < |s| && s[i] == s[j]
    ensures multiset(s)[s[i]] >= 2
  {
    assert s == s[..j] + [s[j]] + s[j + 1..];
    assert s[i] in s[..j];
  }

  /** The sorted tallies are the tallies of the distinct values, each exactly once. */
  lemma SortedTallies(xs: seq<string>)
    ensures var s := SortDesc(Tallies(xs));
            && Descending(s) && |s| == |Keys(xs)|
            && (forall i :: 0 <= i < |s| ==> s[i].key in xs && s[i].count == multiset(xs)[s[i].key])
            && (forall i, j :: 0 <= i < j < |s| ==> s[i].key != s[j].key)
            && (forall x :: x in xs ==> exists j :: 0 <= j < |s| && s[j].key == x)
  {
    var ts := Tallies(xs);
    var s := SortDesc(ts);
    SortDescOrdered(ts);
    SortDescPermutes(ts);
    forall i | 0 <= i < |s|
      ensures s[i].key in xs && s[i].count == multiset(xs)[s[i].key]
    {
      assert s[i] in multiset(ts);
      var m :| 0 <= m < |ts| && ts[m] == s[i];
    }
    assert Distinct(ts) by {
      forall i, j | 0 <= i < j < |ts| ensures ts[i] != ts[j] {
        assert ts[i].key == Keys(xs)[i] && ts[j].key == Keys(xs)[j];
      }
    }
    forall i, j | 0 <= i < j < |s|
      ensures s[i].key != s[j].key
    {
      if s[i].key == s[j].key {
        assert s[i] == s[j];
        RepeatedTwice(s, i, j);
        DistinctAtMostOnce(ts, s[i]);
      }
    }
    forall x | x in xs
      ensures exists j :: 0 <= j < |s| && s[j].key == x
    {
      var m :| 0 <= m < |Keys(xs)| && Keys(xs)[m] == x;
      assert ts[m] in multiset(s);
      var j :| 0 <= j < |s| && s[j] == ts[m];
    }
  }

  /** `most_common(n)` lists at most `n` distinct values, each with its exact
      count, most frequent first. */
  lemma MostCommonEntries(xs: seq<string>, n: nat)
    ensures var r := MostCommon(xs, n);
            && |r| == (if |Keys(xs)| <= n then |Keys(xs)| else n)
            && Descending(r)
            && (forall i :: 0 <= i < |r| ==> r[i].key in xs && r[i].count == multiset(xs)[r[i].key] && r[i].count >= 1)
            && (forall i, j :: 0 <= i < j < |r| ==> r[i].key != r[j].key)
  {
    var s := SortDesc(Tallies(xs));
    var r := MostCommon(xs, n);
    SortedTallies(xs);
    assert forall i :: 0 <= i < |r| ==> r[i] == s[i];
    forall i | 0 <= i < |r|
      ensures r[i].count >= 1
    {
      assert r[i].key in multiset(xs);
    }
  }

  /** A value `most_common(n)` leaves out occurs no more often than the last one
      listed, and is left out only when `n` entries are listed. */
  lemma MostCommonOmitted(xs: seq<string>, n: nat, x: string)
    requires n > 0 && x in xs
    requires forall i :: 0 <= i < |MostCommon(xs, n)| ==> MostCommon(xs, n)[i].key != x
    ensures |MostCommon(xs, n)| == n && multiset(xs)[x] <= MostCommon(xs, n)[n - 1].count
  {
    var s := SortDesc(Tallies(xs));
    var r := MostCommon(xs, n);
    SortedTallies(xs);
    var j :| 0 <= j < |s| && s[j].key == x;
    assert s[n - 1].count >= s[j].count;
  }

  /** The channel of every contact, in order. */
  function MediosOf(cs: seq<Contact>): (ms: seq<string>)
    ensures |ms| == |cs| && forall i :: 0 <= i < |cs| ==> ms[i] == cs[i].medio
  {
    seq(|cs|, i requires 0 <= i < |cs| => cs[i].medio)
  }

  /** The programme of every contact, in order. */
  function AllProgramas(cs: seq<Contact>): (ps: seq<string>)
    ensures |ps| == |cs| && forall i :: 0 <= i < |cs| ==> ps[i] == cs[i].programaInteres
  {
    seq(|cs|, i requires 0 <= i < |cs| => cs[i].programaInteres)
  }

  /** The programme of every contact with a non-empty one (`if c.get("programa_interes")`). */
  function ProgramasOf(cs: seq<Contact>): (ps: seq<string>)
    ensures forall i :: 0 <= i < |ps| ==> ps[i] != ""
    decreases |cs|
  {
    if |cs| == 0 then []
    else
      var p := cs[|cs| - 1].programaInteres;
      ProgramasOf(cs[..|cs| - 1]) + (if p != "" then [p] else [])
  }

  /** A non-empty programme is counted once per contact naming it; the empty
      one is not counted. */
  lemma {:induction false} ProgramasCounted(cs: seq<Contact>, p: string)
    ensures multiset(ProgramasOf(cs))[p] == if p == "" then 0 else multiset(AllProgramas(cs))[p]
    decreases |cs|
  {
    if |cs| == 0 {
      assert AllProgramas(cs) == [];
    } else {
      var k := |cs| - 1;
      var q := cs[k].programaInteres;
      var prev := ProgramasOf(cs[..k]);
      var all := AllProgramas(cs[..k]);
      ProgramasCounted(cs[..k], p);
      AllProgramasSnoc(cs);
      MultisetSnoc(all, q, p);
      var step := if q == p then 1 else 0;
      assert multiset(AllProgramas(cs))[p] == multiset(all)[p] + step;
      if q != "" {
        assert ProgramasOf(cs) == prev + [q];
        MultisetSnoc(prev, q, p);
        assert multiset(ProgramasOf(cs))[p] == multiset(prev)[p] + step;
      } else {
        assert ProgramasOf(cs) == prev;
      }
    }
  }

  lemma AllProgramasSnoc(cs: seq<Contact>)
    requires |cs| > 0
    ensures AllProgramas(cs) == AllProgramas(cs[..|cs| - 1]) + [cs[|cs| - 1].programaInteres]
  {
    var k := |cs| - 1;
    var a := AllProgramas(cs);
    var b := AllProgramas(cs[..k]) + [cs[k].programaInteres];
    assert |a| == |b|;
    forall i | 0 <= i < |a| ensures a[i] == b[i] {
      if i < k {
        assert cs[..k][i] == cs[i];
      }
    }
  }

  lemma MultisetSnoc<T>(s: seq<T>, x: T, y: T)
    ensures multiset(s + [x])[y] == multiset(s)[y] + (if x == y then 1 else 0)
  {
    assert multiset(s + [x]) == multiset(s) + multiset{x};
  }

  // ---- weekly buckets -------------------------------------------------------------

  /** Python's `date.weekday()` of a day number: Monday is 0; day 0
      (1970-01-01) was a Thursday. */
  function Weekday(d: Date): (w: nat)
    ensures w < 7
  {
    (d + 3) % 7
  }

  /** The Monday of the week of `d` (`dt - timedelta(days=dt.weekday())`). */
  function WeekStart(d: Date): Date
  {
    d - Weekday(d)
  }

  /** The week start is a Monday at most six days before the date, and two dates
      share a week start exactly when they lie in the same Monday-to-Sunday week. */
  lemma WeekStartProps(d: Date, e: Date)
    ensures Weekday(WeekStart(d)) == 0
    ensures WeekStart(d) <= d < WeekStart(d) + 7
    ensures WeekStart(e) == WeekStart(d) <==> WeekStart(d) <= e < WeekStart(d) + 7
  {
    var m := WeekStart(d);
    assert (m + 3) % 7 == 0 by {
      assert m + 3 == (d + 3) - (d + 3) % 7;
    }
    if m <= e < m + 7 {
      assert (e + 3) % 7 == e - m by {
        assert e + 3 == (m + 3) + (e - m);
      }
    }
    if WeekStart(e) == m {
      assert e - Weekday(e) == m;
    }
  }

  /** Whether a contact has a date to bucket by (`if c.get("fecha_a_utilizar")`). */
  predicate Dated(c: Contact) { c.fechaAUtilizar.Some? }

  /** The number of dated contacts whose week starts on `w`. */
  function CountWeek(cs: seq<Contact>, w: Date): (n: nat)
    ensures n <= |cs|
    decreases |cs|
  {
    if |cs| == 0 then 0
    else
      var c := cs[|cs| - 1];
      CountWeek(cs[..|cs| - 1], w) + (if Dated(c) && WeekStart(c.fechaAUtilizar.value) == w then 1 else 0)
  }

  /** The week starts of the dated contacts. */
  function Weeks(cs: seq<Contact>): set<Date>
  {
    set i | 0 <= i < |cs| && Dated(cs[i]) :: WeekStart(cs[i].fechaAUtilizar.value)
  }

  /** A week has a bucket exactly when some contact is counted in it. */
  lemma {:induction false} WeeksCounted(cs: seq<Contact>, w: Date)
    ensures w in Weeks(cs) <==> CountWeek(cs, w) > 0
    decreases |cs|
  {
    if |cs| > 0 {
      var k := |cs| - 1;
      WeeksCounted(cs[..k], w);
      assert Weeks(cs) == Weeks(cs[..k]) + (if Dated(cs[k]) then {WeekStart(cs[k].fechaAUtilizar.value)} else {});
    }
  }

  /** The buckets agree with the counts of the contacts `cs`. */
  predicate Buckets(weekly: map<Date, nat>, cs: seq<Contact>)
  {
    weekly.Keys == Weeks(cs) && forall w :: w in weekly ==> weekly[w] == CountWeek(cs, w)
  }

  /** One turn of the `weekly` loop: an undated contact leaves the buckets
      alone, a dated one adds 1 to its week's bucket, and they then agree with
      one more contact. */
  lemma BucketStep(cs: seq<Contact>, i: nat, weekly: map<Date, nat>, weekly': map<Date, nat>)
    requires i < |cs| && Buckets(weekly, cs[..i])
    requires !Dated(cs[i]) ==> weekly' == weekly
    requires Dated(cs[i]) ==> var w := WeekStart(cs[i].fechaAUtilizar.value);
                              weekly' == weekly[w := (if w in weekly then weekly[w] else 0) + 1]
    ensures Buckets(weekly', cs[..i + 1])
  {
    var c := cs[i];
    assert cs[..i + 1][..i] == cs[..i];
    assert Weeks(cs[..i + 1]) == Weeks(cs[..i]) + (if Dated(c) then {WeekStart(c.fechaAUtilizar.value)} else {});
    if Dated(c) {
      WeeksCounted(cs[..i], WeekStart(c.fechaAUtilizar.value));
    }
  }

  /** The `weekly` loop of `_get_data_context`: every dated contact adds 1 to
      the bucket of its week. */
  method WeeklyBuckets(cs: seq<Contact>) returns (weekly: map<Date, nat>)
    ensures weekly.Keys == Weeks(cs)
    ensures forall w :: w in weekly ==> weekly[w] == CountWeek(cs, w)
  {
    weekly := map[];
    var i := 0;
    while i < |cs|
      invariant 0 <= i <= |cs|
      invariant Buckets(weekly, cs[..i])
    {
      var c := cs[i];
      ghost var before := weekly;
      if c.fechaAUtilizar.Some? {
        var weekStart := WeekStart(c.fechaAUtilizar.value);
        var current := if weekStart in weekly then weekly[weekStart] else 0;
        weekly := weekly[weekStart := current + 1];
      }
      BucketStep(cs, i, before, weekly);
      i := i + 1;
    }
    assert cs[..i] == cs;
  }

  // ---- the most recent weeks ------------------------------------------------------

  ghost function Pick(s: set<Date>): (y: Date)
    requires s != {}
    ensures y in s
  {
    assert exists y :: y in s by {
      if forall y :: y !in s {
        assert false;
      }
    }
    var y :| y in s; y
  }

  /** A latest day of a non-empty set, found by recursion (it is unique). */
  ghost function LatestOf(s: set<Date>): (m: Date)
    requires s != {}
    ensures m in s && forall x :: x in s ==> x <= m
    decreases |s|
  {
    var y := Pick(s);
    var t := s - {y};
    assert forall x :: x in s ==> x == y || x in t;
    if t == {} then y
    else
      var r := LatestOf(t);
      if y > r then y else r
  }

  /** The latest day of a non-empty set. */
  function MaxOf(s: set<Date>): (m: Date)
    requires s != {}
    ensures m in s && forall x :: x in s ==> x <= m
  {
    var w := LatestOf(s);
    var m :| m in s && forall x :: x in s ==> x <= m;
    m
  }

  /** The elements of a set of days, latest first. */
  function LatestFirst(s: set<Date>): (r: seq<Date>)
    decreases |s|
  {
    if s == {} then []
    else
      var m := MaxOf(s);
      [m] + LatestFirst(s - {m})
  }

  /** Every day of the set once, strictly latest first. */
  lemma LatestFirstOrder(s: set<Date>)
    ensures var r := LatestFirst(s);
            && |r| == |s|
            && (forall x :: x in r <==> x in s)
            && (forall i, j :: 0 <= i < j < |r| ==> r[i] > r[j])
  {
    LatestFirstMembers(s);
    LatestFirstDescending(s);
  }

  lemma {:induction false} LatestFirstMembers(s: set<Date>)
    ensures |LatestFirst(s)| == |s| && forall x :: x in LatestFirst(s) <==> x in s
    decreases |s|
  {
    if s != {} {
      var m := MaxOf(s);
      var t := s - {m};
      LatestFirstMembers(t);
      assert LatestFirst(s) == [m] + LatestFirst(t);
    }
  }

  lemma {:induction false} LatestFirstDescending(s: set<Date>)
    ensures forall i, j :: 0 <= i < j < |LatestFirst(s)| ==> LatestFirst(s)[i] > LatestFirst(s)[j]
    decreases |s|
  {
    if s != {} {
      var m := MaxOf(s);
      var t := s - {m};
      LatestFirstDescending(t);
      LatestFirstMembers(t);
      var rest := LatestFirst(t);
      assert LatestFirst(s) == [m] + rest;
      forall j | 0 <= j < |rest| ensures rest[j] < m {
        assert rest[j] in t;
      }
    }
  }

  /** A week and its count, as in `weekly.items()`. */
  datatype WeekCount = WeekCount(week: Date, leads: nat)

  /** `sorted(weekly.items(), reverse=True)[:8]`: the keys are distinct, so the
      items sort by week, latest first. */
  function RecentWeeks(weekly: map<Date, nat>): seq<WeekCount>
  {
    var ks := LatestFirst(weekly.Keys);
    LatestFirstOrder(weekly.Keys);
    var items := seq(|ks|, i requires 0 <= i < |ks| => WeekCount(ks[i], weekly[ks[i]]));
    if |items| <= 8 then items else items[..8]
  }

  /** Entry `i` of the recent weeks is the `i`-th latest week with its count. */
  lemma RecentWeeksAt(weekly: map<Date, nat>, i: nat)
    requires i < |RecentWeeks(weekly)|
    ensures var ks := LatestFirst(weekly.Keys);
            && i < |ks| && ks[i] in weekly && RecentWeeks(weekly)[i] == WeekCount(ks[i], weekly[ks[i]])
  {
    LatestFirstOrder(weekly.Keys);
  }

  /** At most eight weeks, strictly latest first, each with its own count. */
  lemma RecentWeeksEntries(weekly: map<Date, nat>)
    ensures var r := RecentWeeks(weekly);
            && |r| == (if |weekly| <= 8 then |weekly| else 8)
            && (forall i, j :: 0 <= i < j < |r| ==> r[i].week > r[j].week)
            && (forall i :: 0 <= i < |r| ==> r[i].week in weekly && r[i].leads == weekly[r[i].week])
  {
    var ks := LatestFirst(weekly.Keys);
    var r := RecentWeeks(weekly);
    LatestFirstOrder(weekly.Keys);
    assert |weekly.Keys| == |weekly|;
    forall i, j | 0 <= i < j < |r| ensures r[i].week > r[j].week {
      RecentWeeksAt(weekly, i);
      RecentWeeksAt(weekly, j);
    }
    forall i | 0 <= i < |r| ensures r[i].week in weekly && r[i].leads == weekly[r[i].week] {
      RecentWeeksAt(weekly, i);
    }
  }

  /** A week left out of the recent weeks is older than every week listed. */
  lemma RecentWeeksOmitted(weekly: map<Date, nat>, w: Date)
    requires w in weekly
    requires forall i :: 0 <= i < |RecentWeeks(weekly)| ==> RecentWeeks(weekly)[i].week != w
    ensures forall i :: 0 <= i < |RecentWeeks(weekly)| ==> w < RecentWeeks(weekly)[i].week
  {
    var ks := LatestFirst(weekly.Keys);
    var r := RecentWeeks(weekly);
    LatestFirstOrder(weekly.Keys);
    var j :| 0 <= j < |ks| && ks[j] == w;
    assert j >= |r| by {
      if j < |r| {
        RecentWeeksAt(weekly, j);
        assert false;
      }
    }
    forall i | 0 <= i < |r| ensures w < r[i].week {
      RecentWeeksAt(weekly, i);
    }
  }

  /** The summary `_get_data_context` serialises. */
  datatype DataSummary = DataSummary(kpis: ContextKpis, topMedios: seq<Tally>,
                                     tendenciaSemanal: seq<WeekCount>, topProgramas: seq<Tally>)

  /** `_get_data_context` before `json.dumps`. */
  method DataContext(cs: seq<Contact>) returns (summary: DataSummary)
    ensures summary.kpis == SummaryKpis(cs)
    ensures summary.topMedios == MostCommon(MediosOf(cs), 5)
    ensures summary.topProgramas == MostCommon(ProgramasOf(cs), 5)
    ensures exists weekly: map<Date, nat> :: && weekly.Keys == Weeks(cs)
                                           && (forall w :: w in weekly ==> weekly[w] == CountWeek(cs, w))
                                           && summary.tendenciaSemanal == RecentWeeks(weekly)
  {
    var medioCounts := MostCommon(MediosOf(cs), 5);
    var progCounts := MostCommon(ProgramasOf(cs), 5);
    var weekly := WeeklyBuckets(cs);
    var recentWeeks := RecentWeeks(weekly);
    summary := DataSummary(SummaryKpis(cs), medioCounts, recentWeeks, progCounts);
  }

  // ---- POST /api/ai/chat ------------------------------------------------------------

  /** One entry of the request's `history`; a key the client left out is None. */
  datatype HistoryEntry = HistoryEntry(role: Option<string>, content: Option<string>)

  datatype Message = Message(role: string, content: string)

  const ChatPreamble := "Eres un analista de datos experto del contact center Crexe. "
                      + "Respondes preguntas sobre leads, gestión y conversión usando los datos reales. "
                      + "Sé conciso, usa números y porcentajes. Responde en español.\n\n"

  /** The system message: the fixed instructions followed by the data summary. */
  function SystemPrompt(context: string): string
  {
    ChatPreamble + "DATOS ACTUALES:\n" + context
  }

  /** Python's `xs[-n:]` for `n > 0`: the last `n` entries, or all of them. */
  function LastN<T>(xs: seq<T>, n: nat): (r: seq<T>)
    ensures |r| == if |xs| <= n then |xs| else n
    ensures forall i :: 0 <= i < |r| ==> r[i] == xs[|xs| - |r| + i]
  {
    if |xs| <= n then xs else xs[|xs| - n..]
  }

  /** A history entry as a chat message: role "user" and content "" by default. */
  function AsMessage(h: HistoryEntry): Message
  {
    Message(h.role.GetOr("user"), h.content.GetOr(""))
  }

  /** The messages `ai_chat` sends: the system prompt, the last six history
      entries, then the new user message. */
  function ChatMessages(context: string, history: Option<seq<HistoryEntry>>, message: string): seq<Message>
  {
    var window := LastN(history.GetOr([]), 6);
    [Message("system", SystemPrompt(context))]
      + seq(|window|, i requires 0 <= i < |window| => AsMessage(window[i]))
      + [Message("user", message)]
  }

  /** The message list of `ai_chat`, built by appending. */
  method BuildChatMessages(context: string, history: Option<seq<HistoryEntry>>, message: string)
    returns (messages: seq<Message>)
    ensures messages == ChatMessages(context, history, message)
  {
    messages := [Message("system", SystemPrompt(context))];
    var window := LastN(history.GetOr([]), 6);
    var i := 0;
    while i < |window|
      invariant 0 <= i <= |window|
      invariant messages == [Message("system", SystemPrompt(context))]
                            + seq(i, j requires 0 <= j < i => AsMessage(window[j]))
    {
      messages := messages + [AsMessage(window[i])];
      i := i + 1;
    }
    messages := messages + [Message("user", message)];
  }

  /** The system prompt comes first and the new message last; in between are the
      latest history entries, at most six, in order, so there are at most eight. */
  lemma ChatMessagesShape(context: string, history: Option<seq<HistoryEntry>>, message: string)
    ensures var m := ChatMessages(context, history, message);
            var h := history.GetOr([]);
            && |m| == 2 + (if |h| <= 6 then |h| else 6) && |m| <= 8
            && m[0] == Message("system", SystemPrompt(context))
            && m[|m| - 1] == Message("user", message)
            && (forall i :: 1 <= i < |m| - 1 ==> m[i] == AsMessage(h[|h| - (|m| - 2) + (i - 1)]))
  {
    var w := LastN(history.GetOr([]), 6);
    var mid := seq(|w|, i requires 0 <= i < |w| => AsMessage(w[i]));
    Framed(Message("system", SystemPrompt(context)), mid, Message("user", message));
  }

  /** `[first] + mid + [last]` holds `mid` between its two ends. */
  lemma Framed<T>(first: T, mid: seq<T>, last: T)
    ensures var m := [first] + mid + [last];
            && |m| == |mid| + 2 && m[0] == first && m[|m| - 1] == last
            && forall i :: 1 <= i < |m| - 1 ==> m[i] == mid[i - 1]
  {
  }

  // ---- fences and fallbacks -----------------------------------------------------------

  const Fence := "```"

  /** What remains of the model's answer once fences are removed: the stripped
      answer, or, when it holds a fence, the text between the first fence and
      the next one (or the end), without a leading `json`. */
  function Unfenced(content: string): string
  {
    FromRaw(Strip(content, Python))
  }

  /** The fence handling of `Unfenced` on the already stripped answer. */
  function FromRaw(raw: string): string
  {
    if !Contains(raw, Fence) then raw
    else
      var inner := Split(raw, Fence)[1];
      if StartsWith(inner, "json") then inner[4..] else inner
  }

  /** Leading white space of any kind Python strips, such as a no-break space
      or a line separator, does not reach the parser. */
  lemma UnfencedSkipsSpace(c: char, content: string)
    requires IsSpace(c, Python)
    ensures Unfenced([c] + content) == Unfenced(content)
  {
    StripLeading(c, content, Python);
    assert Unfenced([c] + content) == FromRaw(Strip([c] + content, Python));
  }

  /** The post-processing in `ai_insights` and `ai_predictions`, step by step.
      `split("```")[1]` never fails: a string with a fence splits in two or more. */
  method StripFences(content: string) returns (raw: string)
    ensures raw == Unfenced(content)
  {
    raw := Strip(content, Python);
    if Contains(raw, Fence) {
      SplitHasSecond(raw, Fence);
      raw := Split(raw, Fence)[1];
      if StartsWith(raw, "json") {
        raw := raw[4..];
      }
    }
  }

  lemma SuffixFree(s: string, k: nat, sub: string)
    requires k <= |s| && !Contains(s, sub)
    ensures !Contains(s[k..], sub)
  {
    forall j | 0 <= j <= |s[k..]|
      ensures !OccursAt(s[k..], sub, j)
    {
      if OccursAt(s[k..], sub, j) {
        assert s[k..][j..j + |sub|] == s[k + j..k + j + |sub|];
        assert OccursAt(s, sub, k + j);
      }
    }
  }

  /** An answer without a fence is only stripped; an answer with one is cut to
      the text after the first fence up to the next, with a leading `json`
      dropped; either way no fence is left. */
  lemma UnfencedProps(content: string)
    ensures var raw := Strip(content, Python);
            !Contains(raw, Fence) ==> Unfenced(content) == raw
    ensures var raw := Strip(content, Python);
            Contains(raw, Fence) ==>
              var i := IndexOf(raw, Fence).value;
              var rest := raw[i + 3..];
              var inner := if Contains(rest, Fence) then rest[..IndexOf(rest, Fence).value] else rest;
              Unfenced(content) == if StartsWith(inner, "json") then inner[4..] else inner
    ensures !Contains(Unfenced(content), Fence)
  {
    var raw := Strip(content, Python);
    if Contains(raw, Fence) {
      SplitHasSecond(raw, Fence);
      SplitFirstTwo(raw, Fence);
      SplitPiecesFree(raw, Fence);
      var inner := Split(raw, Fence)[1];
      assert !Contains(inner, Fence);
      if StartsWith(inner, "json") {
        SuffixFree(inner, 4, Fence);
      }
    }
  }

  datatype InsightCard = InsightCard(icon: string, title: string, description: string)

  /** The `insights` of the response: the parsed JSON, or one alert card. */
  datatype Insights<J> = ParsedInsights(value: J) | FallbackInsights(cards: seq<InsightCard>)

  /** The `predictions` of the response: the parsed JSON, or `[]`. */
  datatype Predictions<J> = ParsedPredictions(value: J) | NoPredictions

  /** `ai_insights` after the model call: parse the unfenced answer; when that
      fails, one alert card quoting its first 200 characters. */
  function InsightsOf<J>(content: string, parse: string -> Option<J>): (r: Insights<J>)
    ensures parse(Unfenced(content)).Some? ==> r == ParsedInsights(parse(Unfenced(content)).value)
    ensures parse(Unfenced(content)).None? ==>
              && r.FallbackInsights? && |r.cards| == 1
              && r.cards[0].icon == "alert" && r.cards[0].title == "Sin datos suficientes"
              && r.cards[0].description <= Unfenced(content)
              && |r.cards[0].description| == if |Unfenced(content)| < 200 then |Unfenced(content)| else 200
  {
    var raw := Unfenced(content);
    match parse(raw)
    case Some(v) => ParsedInsights(v)
    case None => FallbackInsights([InsightCard("alert", "Sin datos suficientes", Take(raw, 200))])
  }

  /** `ai_predictions` after the model call: the parsed unfenced answer, or `[]`. */
  function PredictionsOf<J>(content: string, parse: string -> Option<J>): (r: Predictions<J>)
    ensures r.NoPredictions? <==> parse(Unfenced(content)).None?
    ensures r.ParsedPredictions? ==> r.value == parse(Unfenced(content)).value
  {
    match parse(Unfenced(content))
    case Some(v) => ParsedPredictions(v)
    case None => NoPredictions
  }
}
