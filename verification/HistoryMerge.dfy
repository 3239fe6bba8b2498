/** Merging timing observations into a history of the last three successful
    runs of each module (tools/ci_history.py). */
module HistoryMerge {
  import opened Common

  const KEEP := 3

  datatype Row = Row(
    moduleName: Id, runId: Id, observedAt: int, success: bool, testCount: int, elapsed: int, sourceSha: Id)

  /** The four fields two documents must share to be merged. */
  datatype Profile = Profile(runner: Id, python: Id, image: Id, method_: Id)

  datatype History = History(profile: Profile, observations: seq<Row>)

  datatype CollectError = TIMING_OBSERVATION_CONFLICT

  // ---------- the order of observations ----------

  /** Text order, character by character. */
  predicate LessText(a: string, b: string) {
    if b == "" then false
    else if a == "" then true
    else if a[0] != b[0] then a[0] < b[0]
    else LessText(a[1..], b[1..])
  }

  lemma {:induction false} LessTotal(a: string, b: string)
    ensures a == b || LessText(a, b) || LessText(b, a)
    ensures !(LessText(a, b) && LessText(b, a)) && !LessText(a, a)
  {
    if a != "" {
      LessTotal(a[1..], a[1..]);
      if b != "" {
        LessTotal(a[1..], b[1..]);
        assert a == [a[0]] + a[1..] && b == [b[0]] + b[1..];
      }
    }
  }

  lemma {:induction false} LessTransitive(a: string, b: string, c: string)
    requires LessText(a, b) && LessText(b, c)
    ensures LessText(a, c)
  {
    if a != "" { if a[0] == b[0] && b[0] == c[0] { LessTransitive(a[1..], b[1..], c[1..]); } }
  }

  /** The sort key inside a module: when it was observed, then the run. */
  predicate Older(a: Row, b: Row) {
    a.observedAt < b.observedAt || (a.observedAt == b.observedAt && LessText(a.runId.text, b.runId.text))
  }

  /** The order of a whole history: by module, then oldest first. */
  predicate Before(a: Row, b: Row) {
    LessText(a.moduleName.text, b.moduleName.text) || (a.moduleName == b.moduleName && Older(a, b))
  }

  lemma OlderTransitive(a: Row, b: Row, c: Row)
    requires Older(a, b) && Older(b, c)
    ensures Older(a, c)
  {
    if a.observedAt == b.observedAt == c.observedAt { LessTransitive(a.runId.text, b.runId.text, c.runId.text); }
  }

  lemma OlderStrict(a: Row, b: Row)
    ensures !(Older(a, b) && Older(b, a)) && !Older(a, a)
  {
    LessTotal(a.runId.text, b.runId.text);
  }

  lemma BeforeTransitive(a: Row, b: Row, c: Row)
    requires Before(a, b) && Before(b, c)
    ensures Before(a, c)
  {
    if LessText(a.moduleName.text, b.moduleName.text) && LessText(b.moduleName.text, c.moduleName.text) {
      LessTransitive(a.moduleName.text, b.moduleName.text, c.moduleName.text);
    }
    if a.moduleName == b.moduleName == c.moduleName {
      LessTotal(a.moduleName.text, a.moduleName.text);
      OlderTransitive(a, b, c);
    }
  }

  lemma BeforeStrict(a: Row, b: Row)
    ensures !(Before(a, b) && Before(b, a)) && !Before(a, a)
  {
    LessTotal(a.moduleName.text, b.moduleName.text);
    OlderStrict(a, b);
  }

  // ---------- what is kept ----------

  /** No run of a module has two different observations. */
  ghost predicate ConflictFree(x: set<Row>) {
    forall r, s :: r in x && s in x && r.moduleName == s.moduleName && r.runId == s.runId ==> r == s
  }

  ghost function Newer(x: set<Row>, r: Row): set<Row> {
    set s | s in x && s.moduleName == r.moduleName && s.success && Older(r, s)
  }

  /** The successful observations with fewer than three newer ones. */
  ghost function Kept(x: set<Row>): set<Row> { set r | r in x && r.success && |Newer(x, r)| < KEEP }

  ghost predicate OneModule(u: set<Row>) { forall r, s :: r in u && s in u ==> r.moduleName == s.moduleName }

  lemma OlderTotal(x: set<Row>, r: Row, s: Row)
    requires ConflictFree(x) && r in x && s in x && r.moduleName == s.moduleName && r != s
    ensures Older(r, s) || Older(s, r)
  {
    LessTotal(r.runId.text, s.runId.text);
  }

  lemma {:induction false} NewestExists(x: set<Row>, u: set<Row>) returns (m: Row)
    requires ConflictFree(x) && u <= x && OneModule(u) && u != {}
    ensures m in u && forall r :: r in u && r != m ==> Older(r, m)
    decreases |u|
  {
    hide Older;
    m :| m in u;
    if u != {m} {
      var n := NewestExists(x, u - {m});
      OlderTotal(x, m, n);
      if Older(m, n) {
        m := n;
      } else {
        forall r | r in u && r != m ensures Older(r, m) { if r != n { OlderTransitive(r, n, m); } }
      }
    }
  }

  /** A set that contains everything newer than its members. */
  ghost predicate Upper(x: set<Row>, u: set<Row>) {
    && u <= x && OneModule(u) && (forall r :: r in u ==> r.success)
    && forall r, s :: r in u && s in Newer(x, r) ==> s in u
  }

  lemma NewestKept(x: set<Row>, u: set<Row>, above: set<Row>, m: Row)
    requires ConflictFree(x) && Upper(x, u) && m in u && m !in above
    requires forall r :: r in u && r != m && r !in above ==> Older(r, m)
    ensures Newer(x, m) <= above
  {
    forall s | s in Newer(x, m) ensures s in above {
      assert s in u;
      OlderStrict(m, s);
    }
  }

  lemma SmallSet(a: set<Row>, b: set<Row>)
    requires a <= b
    ensures |a| <= |b|
  {
    assert b == a + (b - a);
  }

  lemma KeptBelow(x: set<Row>, u: set<Row>, above: set<Row>) returns (m: Row)
    requires ConflictFree(x) && Upper(x, u) && above < u && |above| < KEEP
    ensures m in u && m !in above && m in Kept(x)
  {
    hide Older, Newer;
    assert u == above + (u - above);
    m := NewestExists(x, u - above);
    NewestKept(x, u, above, m);
    SmallSet(Newer(x, m), above);
  }

  /** An upper set of three or more keeps at least three. */
  lemma UpperKeepsThree(x: set<Row>, u: set<Row>)
    requires ConflictFree(x) && Upper(x, u) && |u| >= KEEP
    ensures |u * Kept(x)| >= KEEP
  {
    hide Upper, Kept, ConflictFree;
    assert {} < u by { assert |u| > 0; }
    var a := KeptBelow(x, u, {});
    assert {a} < u by { Proper({a}, u); }
    var b := KeptBelow(x, u, {a});
    assert {a, b} < u by { Proper({a, b}, u); }
    var c := KeptBelow(x, u, {a, b});
    SmallSet({a, b, c}, u * Kept(x));
    assert |{a, b, c}| == 3;
  }

  lemma Proper(a: set<Row>, u: set<Row>)
    requires a <= u && |a| < |u|
    ensures a < u
  {
    assert a == u ==> |a| == |u|;
  }

  lemma NewerUpper(x: set<Row>, r: Row)
    ensures Upper(x, Newer(x, r))
  {
    hide Older;
    forall s, t | s in Newer(x, r) && t in Newer(x, s) ensures t in Newer(x, r) { OlderTransitive(r, s, t); }
  }

  lemma UpperSmallKept(x: set<Row>, u: set<Row>)
    requires Upper(x, u) && |u| < KEEP
    ensures u <= Kept(x)
  {
    forall m | m in u ensures m in Kept(x) { SmallSet(Newer(x, m), u); }
  }

  /** Forgetting what is not kept loses no count below three. */
  lemma NewerAgrees(x: set<Row>, y: set<Row>, r: Row)
    requires ConflictFree(x + y)
    ensures |Newer(Kept(x) + y, r)| < KEEP <==> |Newer(x + y, r)| < KEEP
  {
    var u, z := Newer(x, r), Kept(x) + y;
    NewerUpper(x, r);
    SmallSet(Newer(z, r), Newer(x + y, r)) by { NewerGrows(z, x + y, r); }
    if |u| >= KEEP {
      UpperKeepsThree(x, u);
      SmallSet(u * Kept(x), Newer(z, r));
      SmallSet(u, Newer(x + y, r));
    } else {
      UpperSmallKept(x, u);
      assert Newer(x + y, r) == Newer(z, r);
    }
  }

  lemma NewerGrows(x: set<Row>, y: set<Row>, r: Row)
    requires x <= y
    ensures Newer(x, r) <= Newer(y, r)
  {
    hide Older;
  }

  /** Keeping in two steps is keeping once. */
  lemma KeptTwice(x: set<Row>, y: set<Row>)
    requires ConflictFree(x + y)
    ensures Kept(Kept(x) + y) == Kept(x + y)
  {
    hide Newer, ConflictFree;
    forall r ensures r in Kept(Kept(x) + y) <==> r in Kept(x + y) {
      NewerAgrees(x, y, r);
      if r in x && |Newer(x + y, r)| < KEEP {
        NewerGrows(x, x + y, r);
        SmallSet(Newer(x, r), Newer(x + y, r));
      }
    }
  }

  // ---------- the history as a list ----------

  ghost function Rows(s: seq<Row>): set<Row> { set r | r in s }

  ghost predicate Ordered(s: seq<Row>) { forall i, j :: 0 <= i < j < |s| ==> Before(s[i], s[j]) }

  /** The one list that holds what is kept, in order. */
  ghost predicate IsHistory(s: seq<Row>, x: set<Row>) { Ordered(s) && Rows(s) == Kept(x) }

  lemma {:induction false} OrderedUnique(s: seq<Row>, t: seq<Row>)
    requires Ordered(s) && Ordered(t) && Rows(s) == Rows(t)
    ensures s == t
    decreases |s|
  {
    hide Before;
    if s == [] {
      if t != [] { SomeRow(t); }
    } else {
      assert s[0] in Rows(s);
      assert t != [] && t[0] in Rows(t);
      SameFirst(s, t);
      RestRows(s);
      RestRows(t);
      OrderedUnique(s[1..], t[1..]);
      assert s == [s[0]] + s[1..] && t == [t[0]] + t[1..];
    }
  }

  lemma SomeRow(s: seq<Row>)
    requires s != []
    ensures Rows(s) != {}
  {
    assert s[0] in Rows(s);
  }

  lemma SameFirst(s: seq<Row>, t: seq<Row>)
    requires Ordered(s) && Ordered(t) && Rows(s) == Rows(t) && s != [] && t != []
    ensures s[0] == t[0]
  {
    hide Before;
    assert s[0] in Rows(t) && t[0] in Rows(s);
    var i :| 0 <= i < |t| && t[i] == s[0];
    var j :| 0 <= j < |s| && s[j] == t[0];
    if i > 0 && j > 0 { BeforeStrict(s[0], t[0]); }
  }

  lemma RestRows(s: seq<Row>)
    requires Ordered(s) && s != []
    ensures Rows(s[1..]) == Rows(s) - {s[0]} && Ordered(s[1..])
  {
    hide Before;
    forall r ensures r in Rows(s[1..]) <==> r in Rows(s) && r != s[0] {
      if r in s[1..] {
        var i :| 0 <= i < |s| - 1 && s[1..][i] == r;
        assert s[i + 1] == r;
        BeforeStrict(s[0], r);
      }
      if r in s && r != s[0] {
        var i :| 0 < i < |s| && s[i] == r;
        assert s[1..][i - 1] == r;
      }
    }
  }

  lemma KeptConflictFree(x: set<Row>, y: set<Row>)
    requires ConflictFree(x + y)
    ensures ConflictFree(Kept(x) + y)
  {
    hide Newer;
  }

  /** Collecting in two batches gives the history that one collection gives. */
  lemma TwoBatches(x: set<Row>, y: set<Row>, first: seq<Row>, second: seq<Row>, once: seq<Row>)
    requires ConflictFree(x + y)
    requires IsHistory(first, x) && IsHistory(second, Rows(first) + y) && IsHistory(once, x + y)
    ensures second == once
  {
    hide Ordered, Kept, Rows;
    KeptTwice(x, y);
    OrderedUnique(second, once);
  }

  /** Collecting observations that were there already changes nothing. */
  lemma CollectedAgain(x: set<Row>, y: set<Row>, first: seq<Row>, again: seq<Row>)
    requires ConflictFree(x) && y <= x && IsHistory(first, x) && IsHistory(again, Rows(first) + y)
    ensures again == first
  {
    assert x + y == x;
    TwoBatches(x, y, first, again, first);
  }

  // ---------- collecting ----------

  predicate SameProfile(a: History, b: History) { a.profile == b.profile }

  /** The observations that are merged: those measured under the same profile. */
  ghost function Merged(history: History, documents: seq<History>): set<Row> {
    set i, r | 0 <= i < |documents| && SameProfile(history, documents[i]) && r in documents[i].observations :: r
  }

  datatype RunKey = RunKey(moduleName: Id, runId: Id)

  function KeyOf(r: Row): RunKey { RunKey(r.moduleName, r.runId) }

  /** `seen` holds the rows of `x` by module and run. */
  ghost predicate Seen(x: set<Row>, seen: map<RunKey, Row>) {
    && (forall r :: r in x ==> KeyOf(r) in seen && seen[KeyOf(r)] == r)
    && (forall k :: k in seen ==> seen[k] in x && KeyOf(seen[k]) == k)
  }

  lemma SeenConflictFree(x: set<Row>, seen: map<RunKey, Row>)
    requires Seen(x, seen)
    ensures ConflictFree(x)
  {
    forall r, s | r in x && s in x && r.moduleName == s.moduleName && r.runId == s.runId ensures r == s {
      assert KeyOf(r) == KeyOf(s);
    }
  }

  method AddRows(rows: seq<Row>, before: map<RunKey, Row>, ghost x: set<Row>)
    returns (out: Result<map<RunKey, Row>, CollectError>)
    requires Seen(x, before)
    ensures out.Ok? <==> ConflictFree(x + Rows(rows))
    ensures out.Ok? ==> Seen(x + Rows(rows), out.value)
  {
    var seen := before;
    var i := 0;
    assert x + Rows(rows[..0]) == x;
    while i < |rows|
      invariant 0 <= i <= |rows| && Seen(x + Rows(rows[..i]), seen)
    {
      var r := rows[i];
      assert Rows(rows[..i + 1]) == Rows(rows[..i]) + {r} by {
        assert forall s :: s in rows[..i + 1] <==> s in rows[..i] || s == r;
      }
      if KeyOf(r) in seen && seen[KeyOf(r)] != r {
        Conflicting(x, rows, i, seen);
        return Err(TIMING_OBSERVATION_CONFLICT);
      }
      SeenAdds(x + Rows(rows[..i]), seen, r);
      assert x + Rows(rows[..i]) + {r} == x + Rows(rows[..i + 1]);
      seen := seen[KeyOf(r) := r];
      i := i + 1;
    }
    assert rows[..i] == rows;
    SeenConflictFree(x + Rows(rows), seen);
    return Ok(seen);
  }

  lemma SeenAdds(x: set<Row>, seen: map<RunKey, Row>, r: Row)
    requires Seen(x, seen) && (KeyOf(r) in seen ==> seen[KeyOf(r)] == r)
    ensures Seen(x + {r}, seen[KeyOf(r) := r])
  {
  }

  lemma Conflicting(x: set<Row>, rows: seq<Row>, i: nat, seen: map<RunKey, Row>)
    requires i < |rows| && Seen(x + Rows(rows[..i]), seen) && KeyOf(rows[i]) in seen && seen[KeyOf(rows[i])] != rows[i]
    ensures !ConflictFree(x + Rows(rows))
  {
    var s := seen[KeyOf(rows[i])];
    assert s in x + Rows(rows) by { if s in rows[..i] { assert s in rows; } }
    assert rows[i] in x + Rows(rows);
    assert KeyOf(s) == KeyOf(rows[i]);
  }

  lemma ConflictGrows(x: set<Row>, y: set<Row>)
    requires x <= y && !ConflictFree(x)
    ensures !ConflictFree(y)
  {
  }

  lemma MergedNext(history: History, documents: seq<History>, i: nat)
    requires i < |documents|
    ensures Merged(history, documents[..i + 1])
            == Merged(history, documents[..i])
               + if SameProfile(history, documents[i]) then Rows(documents[i].observations) else {}
    ensures Merged(history, documents[..i + 1]) <= Merged(history, documents)
  {
    var d := documents[i];
    forall r | r in Merged(history, documents[..i + 1])
      ensures r in Merged(history, documents[..i]) || (SameProfile(history, d) && r in d.observations)
      ensures r in Merged(history, documents)
    {
      var j :| 0 <= j < i + 1 && SameProfile(history, documents[..i + 1][j]) && r in documents[..i + 1][j].observations;
      assert documents[..i + 1][j] == documents[j];
      if j < i { assert documents[..i][j] == documents[j]; }
    }
    forall r | r in Merged(history, documents[..i]) ensures r in Merged(history, documents[..i + 1]) {
      var j :| 0 <= j < i && SameProfile(history, documents[..i][j]) && r in documents[..i][j].observations;
      assert documents[..i + 1][j] == documents[..i][j];
    }
    assert documents[..i + 1][i] == d;
  }

  /** How many documents were measured under another profile. */
  function OtherProfiles(history: History, documents: seq<History>): nat
    decreases |documents|
  {
    if documents == [] then 0
    else
      OtherProfiles(history, documents[..|documents| - 1])
      + if SameProfile(history, documents[|documents| - 1]) then 0 else 1
  }

  method Gather(history: History, documents: seq<History>)
    returns (out: Result<map<RunKey, Row>, CollectError>, excluded: nat)
    ensures out.Ok? <==> ConflictFree(Merged(history, documents))
    ensures out.Ok? ==> Seen(Merged(history, documents), out.value) && excluded == OtherProfiles(history, documents)
  {
    var seen: map<RunKey, Row> := map[];
    excluded := 0;
    var i := 0;
    while i < |documents|
      invariant 0 <= i <= |documents| && Seen(Merged(history, documents[..i]), seen)
      invariant excluded == OtherProfiles(history, documents[..i])
    {
      hide Seen, ConflictFree, Merged, Rows;
      assert documents[..i + 1][..i] == documents[..i];
      MergedNext(history, documents, i);
      if SameProfile(history, documents[i]) {
        var more := AddRows(documents[i].observations, seen, Merged(history, documents[..i]));
        if more.Err? {
          ConflictGrows(Merged(history, documents[..i + 1]), Merged(history, documents));
          return Err(more.error), excluded;
        }
        seen := more.value;
      } else {
        assert Merged(history, documents[..i]) + {} == Merged(history, documents[..i]);
        excluded := excluded + 1;
      }
      i := i + 1;
    }
    assert documents[..i] == documents;
    SeenConflictFree(Merged(history, documents), seen);
    return Ok(seen), excluded;
  }

  // ---------- sorting ----------

  function Insert(s: seq<Row>, r: Row): seq<Row>
    decreases |s|
  {
    if s == [] then [r]
    else if Before(r, s[|s| - 1]) then Insert(s[..|s| - 1], r) + [s[|s| - 1]]
    else s + [r]
  }

  lemma Snoc(s: seq<Row>, r: Row)
    requires Ordered(s) && forall t :: t in Rows(s) ==> Before(t, r)
    ensures Ordered(s + [r]) && Rows(s + [r]) == Rows(s) + {r}
  {
    hide Before;
    forall i | 0 <= i < |s| ensures Before(s[i], r) { assert s[i] in Rows(s); }
  }

  lemma Init(s: seq<Row>)
    requires Ordered(s) && s != []
    ensures var n := |s| - 1;
            && Ordered(s[..n]) && Rows(s) == Rows(s[..n]) + {s[n]}
            && forall t :: t in Rows(s[..n]) ==> Before(t, s[n])
  {
    hide Before;
    assert s == s[..|s| - 1] + [s[|s| - 1]];
  }

  lemma {:induction false} InsertOrdered(s: seq<Row>, r: Row)
    requires Ordered(s) && forall t :: t in Rows(s) ==> Before(t, r) || Before(r, t)
    ensures Ordered(Insert(s, r)) && Rows(Insert(s, r)) == Rows(s) + {r}
    decreases |s|
  {
    hide Before, Ordered, Rows;
    if s == [] {
      EmptyList();
      Snoc([], r);
      assert [] + [r] == [r];
    } else {
      var n := |s| - 1;
      Init(s);
      if Before(r, s[n]) {
        InsertOrdered(s[..n], r);
        Snoc(Insert(s[..n], r), s[n]);
        assert Rows(s[..n]) + {r} + {s[n]} == Rows(s) + {r};
      } else {
        forall t | t in Rows(s) ensures Before(t, r) { if t != s[n] { BeforeTransitive(t, s[n], r); } }
        Snoc(s, r);
      }
    }
  }

  lemma EmptyList()
    ensures Ordered([]) && Rows([]) == {}
  {
  }

  method SortRows(rows: set<Row>) returns (s: seq<Row>)
    requires ConflictFree(rows) && OneModule(rows)
    ensures Ordered(s) && Rows(s) == rows
  {
    hide Ordered, Rows, Before, ConflictFree, OneModule;
    s := [];
    EmptyList();
    var todo := rows;
    while todo != {}
      invariant todo <= rows && Ordered(s) && Rows(s) == rows - todo
      decreases |todo|
    {
      var r :| r in todo;
      forall t | t in Rows(s) ensures Before(t, r) || Before(r, t) { OneModuleTotal(rows, t, r); }
      InsertOrdered(s, r);
      s := Insert(s, r);
      assert rows - todo + {r} == rows - (todo - {r});
      todo := todo - {r};
    }
  }

  lemma OneModuleTotal(rows: set<Row>, t: Row, r: Row)
    requires ConflictFree(rows) && OneModule(rows) && t in rows && r in rows && t != r
    ensures Before(t, r) || Before(r, t)
  {
    OlderTotal(rows, t, r);
  }

  lemma {:induction false} RowsSize(s: seq<Row>)
    requires Ordered(s)
    ensures |Rows(s)| == |s|
    decreases |s|
  {
    hide Before;
    if s == [] {
      EmptyList();
    } else {
      assert s[0] in Rows(s);
      RestRows(s);
      RowsSize(s[1..]);
    }
  }

  // ---------- the last three ----------

  function Last(s: seq<Row>): seq<Row> { if |s| <= KEEP then s else s[|s| - KEEP..] }

  ghost function Successes(x: set<Row>, m: Id): set<Row> { set r | r in x && r.moduleName == m && r.success }

  lemma LaterAreNewer(x: set<Row>, m: Id, s: seq<Row>, i: nat)
    requires Ordered(s) && Rows(s) == Successes(x, m) && i < |s|
    ensures Newer(x, s[i]) == Rows(s[i + 1..])
  {
    hide Older;
    forall j | 0 <= j < |s| ensures s[j] in Successes(x, m) { assert s[j] in Rows(s); }
    LessTotal(m.text, m.text);
    forall r ensures r in Newer(x, s[i]) <==> r in Rows(s[i + 1..]) {
      if r in Newer(x, s[i]) {
        assert r in Rows(s);
        var j :| 0 <= j < |s| && s[j] == r;
        OlderStrict(s[i], r);
        assert j > i;
        assert s[i + 1..][j - i - 1] == r;
      }
      if r in Rows(s[i + 1..]) {
        var j :| 0 <= j < |s| - i - 1 && s[i + 1..][j] == r;
        assert s[i + 1 + j] == r && Before(s[i], s[i + 1 + j]);
      }
    }
  }

  lemma TailOrdered(s: seq<Row>, n: nat)
    requires Ordered(s) && n <= |s|
    ensures Ordered(s[n..]) && |Rows(s[n..])| == |s| - n
  {
    hide Before;
    RowsSize(s[n..]);
  }

  /** The last three of a module's sorted successes are the ones that are kept. */
  lemma LastAreKept(x: set<Row>, m: Id, s: seq<Row>)
    requires Ordered(s) && Rows(s) == Successes(x, m)
    ensures Ordered(Last(s)) && Rows(Last(s)) == Successes(Kept(x), m)
  {
    hide Newer, Ordered;
    var first := |s| - |Last(s)|;
    assert Last(s) == s[first..];
    TailOrdered(s, first);
    forall i | 0 <= i < |s| ensures s[i] in Kept(x) <==> i >= first {
      assert s[i] in Rows(s);
      LaterAreNewer(x, m, s, i);
      TailOrdered(s, i + 1);
    }
    forall r ensures r in Rows(Last(s)) <==> r in Successes(Kept(x), m) {
      if r in Rows(Last(s)) {
        var j :| 0 <= j < |s| - first && s[first..][j] == r;
        assert s[first + j] == r && s[first + j] in Rows(s);
      }
      if r in Successes(Kept(x), m) {
        assert r in Rows(s);
        var i :| 0 <= i < |s| && s[i] == r;
        assert s[first..][i - first] == r;
      }
    }
  }

  lemma Joined(s: seq<Row>, t: seq<Row>)
    requires Ordered(s) && Ordered(t)
    requires forall a, b :: a in Rows(s) && b in Rows(t) ==> Before(a, b)
    ensures Ordered(s + t) && Rows(s + t) == Rows(s) + Rows(t)
  {
    hide Before;
    forall i, j | 0 <= i < j < |s + t| ensures Before((s + t)[i], (s + t)[j]) {
      if i < |s| { assert s[i] in Rows(s); }
      if j >= |s| { assert t[j - |s|] in Rows(t); }
    }
  }

  // ---------- the whole ----------

  ghost predicate Least(names: set<Id>, m: Id) { m in names && forall n :: n in names && n != m ==> LessText(m.text, n.text) }

  method LeastName(names: set<Id>) returns (m: Id)
    requires names != {}
    ensures Least(names, m)
  {
    hide LessText;
    m :| m in names;
    var todo := names - {m};
    while todo != {}
      invariant m in names && m !in todo && todo <= names
      invariant forall n :: n in names && n != m && n !in todo ==> LessText(m.text, n.text)
      decreases |todo|
    {
      var n :| n in todo;
      LessTotal(n.text, m.text);
      if LessText(n.text, m.text) {
        forall k | k in names && k != n && k !in todo ensures LessText(n.text, k.text) {
          if k != m { LessTransitive(n.text, m.text, k.text); }
        }
        m := n;
      }
      todo := todo - {n};
    }
  }

  ghost predicate GroupedOk(x: set<Row>, done: set<RunKey>, modules: map<Id, set<Row>>) {
    && (forall m :: m in modules ==> modules[m] != {})
    && forall m, r :: (m in modules && r in modules[m])
                      <==> (r in x && r.success && r.moduleName == m && KeyOf(r) in done)
  }

  method GroupRows(ghost x: set<Row>, seen: map<RunKey, Row>) returns (modules: map<Id, set<Row>>)
    requires Seen(x, seen)
    ensures forall m :: m in modules ==> modules[m] == Successes(x, m) && modules[m] != {}
    ensures forall m :: m !in modules ==> Successes(x, m) == {}
  {
    hide Seen, Successes, GroupedOk;
    modules := map[];
    var todo := seen.Keys;
    GroupNothing(x);
    assert seen.Keys - todo == {};
    while todo != {}
      invariant todo <= seen.Keys && GroupedOk(x, seen.Keys - todo, modules)
      decreases |todo|
    {
      var k :| k in todo;
      var row := seen[k];
      GroupNext(x, seen, todo, k, modules);
      if row.success {
        modules := modules[row.moduleName := (if row.moduleName in modules then modules[row.moduleName] else {}) + {row}];
      }
      todo := todo - {k};
    }
    assert seen.Keys - todo == seen.Keys;
    GroupedAll(x, seen, modules);
  }

  lemma GroupNothing(x: set<Row>)
    ensures GroupedOk(x, {}, map[])
  {
  }

  lemma GroupedAll(x: set<Row>, seen: map<RunKey, Row>, modules: map<Id, set<Row>>)
    requires Seen(x, seen) && GroupedOk(x, seen.Keys, modules)
    ensures forall m :: m in modules ==> modules[m] == Successes(x, m) && modules[m] != {}
    ensures forall m :: m !in modules ==> Successes(x, m) == {}
  {
    assert forall r :: r in x ==> KeyOf(r) in seen.Keys;
    forall m ensures m in modules ==> modules[m] == Successes(x, m)
             ensures m !in modules ==> Successes(x, m) == {}
    {
    }
  }

  lemma GroupNext(x: set<Row>, seen: map<RunKey, Row>, todo: set<RunKey>, k: RunKey, modules: map<Id, set<Row>>)
    requires Seen(x, seen) && todo <= seen.Keys && k in todo && GroupedOk(x, seen.Keys - todo, modules)
    ensures var row := seen[k];
            GroupedOk(x, seen.Keys - (todo - {k}),
                      if !row.success then modules
                      else modules[row.moduleName := (if row.moduleName in modules then modules[row.moduleName] else {}) + {row}])
  {
  }

  /** The kept rows of the modules outside `todo`. */
  ghost function KeptOf(x: set<Row>, todo: set<Id>): set<Row> { set r | r in Kept(x) && r.moduleName !in todo }

  lemma KeptNext(x: set<Row>, todo: set<Id>, m: Id)
    requires m in todo
    ensures KeptOf(x, todo - {m}) == KeptOf(x, todo) + Successes(Kept(x), m)
  {
    hide Newer;
  }

  /** All earlier modules come before the least of the rest. */
  lemma LeastAfter(x: set<Row>, all: set<Id>, todo: set<Id>, m: Id)
    requires Least(todo, m) && todo <= all && forall n, k :: n in all - todo && k in todo ==> LessText(n.text, k.text)
    requires forall r :: r in Kept(x) ==> r.moduleName in all
    ensures forall a, b :: a in KeptOf(x, todo) && b in Successes(Kept(x), m) ==> Before(a, b)
    ensures forall n, k :: n in all - (todo - {m}) && k in todo - {m} ==> LessText(n.text, k.text)
  {
    hide LessText, Kept, Older;
  }

  ghost predicate IsCollected(history: History, reports: seq<History>, h: History) {
    h.profile == history.profile && IsHistory(h.observations, Merged(history, [history] + reports))
  }

  /** The three last successful observations of every module, in order, of
      everything measured under the history's profile; or a conflict, when one
      run of a module was reported with two different observations. */
  method Collect(history: History, reports: seq<History>) returns (out: Result<History, CollectError>, excluded: nat)
    ensures out.Ok? <==> ConflictFree(Merged(history, [history] + reports))
    ensures out.Ok? ==> IsCollected(history, reports, out.value) && excluded == OtherProfiles(history, [history] + reports)
  {
    hide ConflictFree, Merged, Seen, Rows, Ordered, Kept, Least, LessText, Before, KeptOf, Successes;
    ghost var x := Merged(history, [history] + reports);
    var gathered;
    gathered, excluded := Gather(history, [history] + reports);
    if gathered.Err? { return Err(gathered.error), excluded; }
    var modules := GroupRows(x, gathered.value);
    var observations: seq<Row> := [];
    EmptyList();
    KeptNothing(x, modules.Keys);
    var todo := modules.Keys;
    while todo != {}
      invariant todo <= modules.Keys
      invariant Ordered(observations) && Rows(observations) == KeptOf(x, todo)
      invariant forall n, k :: n in modules.Keys - todo && k in todo ==> LessText(n.text, k.text)
      decreases |todo|
    {
      var m := LeastName(todo);
      assert m in todo by { LeastIn(todo, m); }
      SuccessesFree(x, m);
      var s := SortRows(modules[m]);
      LastAreKept(x, m, s);
      LeastAfter(x, modules.Keys, todo, m);
      Joined(observations, Last(s));
      KeptNext(x, todo, m);
      observations := observations + Last(s);
      todo := todo - {m};
    }
    KeptAll(x);
    return Ok(History(history.profile, observations)), excluded;
  }

  lemma LeastIn(names: set<Id>, m: Id)
    requires Least(names, m)
    ensures m in names
  {
  }

  lemma SuccessesFree(x: set<Row>, m: Id)
    requires ConflictFree(x)
    ensures ConflictFree(Successes(x, m)) && OneModule(Successes(x, m))
  {
  }

  lemma KeptNothing(x: set<Row>, all: set<Id>)
    requires forall m :: m !in all ==> Successes(x, m) == {}
    ensures KeptOf(x, all) == {} && forall r :: r in Kept(x) ==> r.moduleName in all
  {
    hide Newer;
    forall r | r in Kept(x) ensures r.moduleName in all {
      assert r in Successes(x, r.moduleName);
    }
  }

  lemma KeptAll(x: set<Row>)
    ensures KeptOf(x, {}) == Kept(x)
  {
    hide Newer;
  }

  // ---------- two calls ----------

  lemma MergedSplit(history: History, a: seq<History>, b: seq<History>)
    ensures Merged(history, a + b) == Merged(history, a) + Merged(history, b)
  {
    forall r | r in Merged(history, a + b) ensures r in Merged(history, a) || r in Merged(history, b) {
      var i :| 0 <= i < |a + b| && SameProfile(history, (a + b)[i]) && r in (a + b)[i].observations;
      if i < |a| { assert (a + b)[i] == a[i]; } else { assert (a + b)[i] == b[i - |a|]; }
    }
    forall r | r in Merged(history, a) ensures r in Merged(history, a + b) {
      var i :| 0 <= i < |a| && SameProfile(history, a[i]) && r in a[i].observations;
      assert (a + b)[i] == a[i];
    }
    forall r | r in Merged(history, b) ensures r in Merged(history, a + b) {
      var i :| 0 <= i < |b| && SameProfile(history, b[i]) && r in b[i].observations;
      assert (a + b)[|a| + i] == b[i];
    }
  }

  lemma MergedSelf(h: History)
    ensures Merged(h, [h]) == Rows(h.observations)
  {
    assert [h][0] == h;
  }

  lemma MergedAs(g: History, h: History, documents: seq<History>)
    requires g.profile == h.profile
    ensures Merged(g, documents) == Merged(h, documents)
  {
  }

  /** Reports collected in two calls, the second into the first one's history,
      give the history of one call with all of them; and if the one call meets
      no conflict, neither do the two. */
  lemma CollectInBatches(history: History, a: seq<History>, b: seq<History>, first: History, second: History, once: History)
    requires ConflictFree(Merged(history, [history] + (a + b)))
    requires IsCollected(history, a, first) && IsCollected(first, b, second) && IsCollected(history, a + b, once)
    ensures ConflictFree(Merged(first, [first] + b))
    ensures second == once
  {
    hide ConflictFree, Merged, IsHistory, Ordered;
    var x, y := Merged(history, [history] + a), Merged(history, b);
    assert [history] + (a + b) == [history] + a + b;
    MergedSplit(history, [history] + a, b);
    MergedSplit(first, [first], b);
    MergedSelf(first);
    MergedAs(first, history, b);
    KeptConflictFree(x, y);
    assert Rows(first.observations) == Kept(x) by { HistoryRows(first.observations, x); }
    TwoBatches(x, y, first.observations, second.observations, once.observations);
  }

  lemma HistoryRows(s: seq<Row>, x: set<Row>)
    requires IsHistory(s, x)
    ensures Rows(s) == Kept(x)
  {
  }

  /** Reports that hold nothing new under the history's profile, collected into
      the history that was merged with what they hold, change nothing. */
  lemma CollectKnown(history: History, a: seq<History>, known: seq<History>, first: History, again: History)
    requires ConflictFree(Merged(history, [history] + a)) && Merged(history, known) <= Merged(history, [history] + a)
    requires IsCollected(history, a, first) && IsCollected(first, known, again)
    ensures ConflictFree(Merged(first, [first] + known)) && again == first
  {
    hide ConflictFree, Merged, IsHistory, Ordered;
    var x, y := Merged(history, [history] + a), Merged(history, known);
    MergedSplit(first, [first], known);
    MergedSelf(first);
    MergedAs(first, history, known);
    assert Rows(first.observations) == Kept(x) by { HistoryRows(first.observations, x); }
    assert x + y == x;
    KeptConflictFree(x, y);
    CollectedAgain(x, y, first.observations, again.observations);
  }

  /** Collecting the same reports a second time changes nothing. */
  lemma CollectTwice(history: History, a: seq<History>, first: History, again: History)
    requires ConflictFree(Merged(history, [history] + a))
    requires IsCollected(history, a, first) && IsCollected(first, a, again)
    ensures ConflictFree(Merged(first, [first] + a)) && again == first
  {
    hide ConflictFree, Merged, IsCollected;
    MergedSplit(history, [history], a);
    CollectKnown(history, a, a, first, again);
  }
}
