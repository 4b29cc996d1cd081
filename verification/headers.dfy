/**
 * Header lists and the Python dicts built from them.
 *
 * A header list is the sequence of (name, value) pairs that Flask and urllib3
 * hand out when their header collections are iterated. A Python dict of
 * headers is modelled as an insertion-ordered header list in which no name
 * occurs twice; dict keys compare by exact string equality.
 */
module Headers {
  import opened Wrappers
  import opened Ascii

  type Header = (string, string)

  function Names(hs: seq<Header>): seq<string> {
    seq(|hs|, i requires 0 <= i < |hs| => hs[i].0)
  }

  /** A Python dict in insertion order: no name occurs twice. */
  predicate IsDict(d: seq<Header>) {
    forall i, j :: 0 <= i < j < |d| ==> d[i].0 != d[j].0
  }

  lemma NamesOfInit(hs: seq<Header>)
    requires |hs| > 0
    ensures Names(hs) == Names(hs[..|hs| - 1]) + [hs[|hs| - 1].0]
  {
  }

  /**
   * The value that a dict built from `hs` holds for `k`: pairs are assigned
   * in order, so the last pair named `k` wins; `None` when no pair is named `k`.
   */
  function Get(hs: seq<Header>, k: string): (r: Option<string>)
    ensures r.None? <==> k !in Names(hs)
    ensures r.Some? ==> (k, r.value) in hs
    decreases |hs|
  {
    if |hs| == 0 then None
    else
      NamesOfInit(hs);
      if hs[|hs| - 1].0 == k then Some(hs[|hs| - 1].1)
      else Get(hs[..|hs| - 1], k)
  }

  /** The pair at index `i` decides `Get` when no later pair carries its name. */
  lemma {:induction false} GetLastWins(hs: seq<Header>, i: int)
    requires 0 <= i < |hs|
    requires forall j :: i < j < |hs| ==> hs[j].0 != hs[i].0
    ensures Get(hs, hs[i].0) == Some(hs[i].1)
    decreases |hs|
  {
    if i < |hs| - 1 {
      GetLastWins(hs[..|hs| - 1], i);
    }
  }

  /** In a dict every entry is what `Get` finds for its name. */
  lemma DictGet(d: seq<Header>, i: int)
    requires IsDict(d)
    requires 0 <= i < |d|
    ensures Get(d, d[i].0) == Some(d[i].1)
  {
    GetLastWins(d, i);
  }

  lemma ReplaceFacts(d: seq<Header>, k: string, v: string, r: seq<Header>)
    requires IsDict(d) && k in Names(d)
    requires r == seq(|d|, i requires 0 <= i < |d| => if d[i].0 == k then (k, v) else d[i])
    ensures IsDict(r) && Names(r) == Names(d)
    ensures forall j :: Get(r, j) == if j == k then Some(v) else Get(d, j)
  {
    assert Names(r) == Names(d);
    forall j
      ensures Get(r, j) == if j == k then Some(v) else Get(d, j)
    {
      if j in Names(d) {
        var i :| 0 <= i < |d| && Names(d)[i] == j;
        DictGet(d, i);
        DictGet(r, i);
      }
    }
  }

  lemma AppendFacts(d: seq<Header>, k: string, v: string)
    requires IsDict(d) && k !in Names(d)
    ensures IsDict(d + [(k, v)])
    ensures forall j :: Get(d + [(k, v)], j) == if j == k then Some(v) else Get(d, j)
  {
    var r := d + [(k, v)];
    assert r[..|r| - 1] == d;
    forall i | 0 <= i < |d|
      ensures d[i].0 != k
    {
      assert Names(d)[i] == d[i].0;
    }
  }

  /**
   * `d[k] = v` on a Python dict: an existing entry named `k` takes the new
   * value in its old position; otherwise the entry is appended.
   */
  function Put(d: seq<Header>, k: string, v: string): (r: seq<Header>)
    requires IsDict(d)
    ensures IsDict(r)
    ensures forall j :: Get(r, j) == if j == k then Some(v) else Get(d, j)
    ensures |r| == if k in Names(d) then |d| else |d| + 1
    ensures forall i :: 0 <= i < |d| ==> r[i].0 == d[i].0
  {
    if k in Names(d) then
      var r := seq(|d|, i requires 0 <= i < |d| => if d[i].0 == k then (k, v) else d[i]);
      ReplaceFacts(d, k, v, r);
      r
    else
      AppendFacts(d, k, v);
      d + [(k, v)]
  }

  /**
   * `{**d, **dict(e)}`: the dict `d` with the pairs of `e` assigned on top of
   * it in order. A name given by `e` takes the value of its last pair in `e`;
   * every other name keeps its value from `d`; the names of `d` keep their
   * positions at the front.
   */
  function Merge(d: seq<Header>, e: seq<Header>): (r: seq<Header>)
    requires IsDict(d)
    ensures IsDict(r)
    ensures forall k :: Get(r, k) == if k in Names(e) then Get(e, k) else Get(d, k)
    ensures |d| <= |r|
    ensures forall i :: 0 <= i < |d| ==> r[i].0 == d[i].0
    decreases |e|
  {
    if |e| == 0 then d
    else
      NamesOfInit(e);
      Put(Merge(d, e[..|e| - 1]), e[|e| - 1].0, e[|e| - 1].1)
  }

  /** The names of a merge are the names of both sides, and no others. */
  lemma MergeNames(d: seq<Header>, e: seq<Header>, k: string)
    requires IsDict(d)
    ensures k in Names(Merge(d, e)) <==> k in Names(d) || k in Names(e)
  {
    assert Get(Merge(d, e), k) == if k in Names(e) then Get(e, k) else Get(d, k);
  }

  /**
   * `hs` without the pairs whose lower-cased name is in `denied`, in the
   * original order and with the original casing.
   */
  function Without(hs: seq<Header>, denied: set<string>): (r: seq<Header>)
    ensures forall h :: h in r <==> h in hs && Lower(h.0) !in denied
    ensures |r| <= |hs|
    decreases |hs|
  {
    if |hs| == 0 then []
    else
      var rest := Without(hs[..|hs| - 1], denied);
      assert hs == hs[..|hs| - 1] + [hs[|hs| - 1]];
      if Lower(hs[|hs| - 1].0) in denied then rest else rest + [hs[|hs| - 1]]
  }

  /** Filtering commutes with concatenation, so the kept pairs stay in their relative order. */
  lemma {:induction false} WithoutConcat(a: seq<Header>, b: seq<Header>, denied: set<string>)
    ensures Without(a + b, denied) == Without(a, denied) + Without(b, denied)
    decreases |b|
  {
    if |b| == 0 {
      assert a + b == a;
    } else {
      var b' := b[..|b| - 1];
      assert (a + b)[..|a + b| - 1] == a + b';
      WithoutConcat(a, b', denied);
    }
  }

  /** A list with nothing to remove is returned unchanged. */
  lemma {:induction false} WithoutKeepsAllowed(hs: seq<Header>, denied: set<string>)
    requires forall i :: 0 <= i < |hs| ==> Lower(hs[i].0) !in denied
    ensures Without(hs, denied) == hs
    decreases |hs|
  {
    if |hs| > 0 {
      WithoutKeepsAllowed(hs[..|hs| - 1], denied);
      assert hs == hs[..|hs| - 1] + [hs[|hs| - 1]];
    }
  }

  /** Filtering twice is filtering once. */
  lemma WithoutIdempotent(hs: seq<Header>, denied: set<string>)
    ensures Without(Without(hs, denied), denied) == Without(hs, denied)
  {
    var r := Without(hs, denied);
    forall i | 0 <= i < |r|
      ensures Lower(r[i].0) !in denied
    {
      assert r[i] in r;
    }
    WithoutKeepsAllowed(r, denied);
  }

  /** For a name that is not denied, filtering does not change what a dict built from the list holds. */
  lemma {:induction false} WithoutGet(hs: seq<Header>, denied: set<string>, k: string)
    ensures Lower(k) in denied ==> k !in Names(Without(hs, denied))
    ensures Lower(k) !in denied ==> Get(Without(hs, denied), k) == Get(hs, k)
    decreases |hs|
  {
    var r := Without(hs, denied);
    if k in Names(r) {
      var i :| 0 <= i < |r| && Names(r)[i] == k;
      assert r[i] in r;
    }
    if |hs| > 0 {
      var init := hs[..|hs| - 1];
      var last := hs[|hs| - 1];
      WithoutGet(init, denied, k);
      if Lower(last.0) !in denied {
        var rest := Without(init, denied);
        assert (rest + [last])[..|rest|] == rest;
      }
    }
  }
}
