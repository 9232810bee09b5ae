/** The `tool_calls_in_progress` accumulator of both `ChatAgent.step`
    versions: streamed tool-call fragments are merged per index into
    `{id, type, function: {name, arguments}}` dicts. A Python dict keeps
    insertion order, so the accumulator is a map plus the order in which
    indices first appeared. */
module ToolAccumulator {
  import opened Common
  import opened Protocol

  datatype Progress = Progress(calls: map<int, ToolCall>, order: seq<int>)

  const Empty: Progress := Progress(map[], [])

  /** No index is listed twice: each one is new when it is appended. */
  predicate Distinct(xs: seq<int>)
  {
    xs == [] || (xs[|xs| - 1] !in xs[..|xs| - 1] && Distinct(xs[..|xs| - 1]))
  }

  /** Every index in the order has its dict. */
  predicate Keyed(p: Progress)
  {
    forall k :: 0 <= k < |p.order| ==> p.order[k] in p.calls
  }

  /** The order lists each key of the map exactly once. */
  predicate WellFormed(p: Progress)
  {
    Distinct(p.order) && Keyed(p) && (forall i :: i in p.calls ==> i in p.order)
  }

  /** The dict made for the first fragment of an index: its id, type
      "function", its name (or ""), and its argument text. */
  function Open(f: Fragment): ToolCall
  {
    ToolCall(f.id, "function", f.name, f.arguments)
  }

  /** A later fragment appends its argument text and supplies a name
      only while the call has none. */
  function Extend(c: ToolCall, f: Fragment): ToolCall
  {
    c.(arguments := c.arguments + f.arguments, name := if f.name != "" && c.name == "" then f.name else c.name)
  }

  function AddFragment(p: Progress, f: Fragment): Progress
  {
    if f.index !in p.calls then Progress(p.calls[f.index := Open(f)], p.order + [f.index])
    else Progress(p.calls[f.index := Extend(p.calls[f.index], f)], p.order)
  }

  /** The accumulator after `fs` have been merged into `p`, in order. */
  function AddAll(p: Progress, fs: seq<Fragment>): Progress
  {
    if fs == [] then p else AddFragment(AddAll(p, fs[..|fs| - 1]), fs[|fs| - 1])
  }

  /** Merging two runs of fragments one after the other is merging their
      concatenation. */
  lemma {:induction false} AddAllAppend(p: Progress, a: seq<Fragment>, b: seq<Fragment>)
    ensures AddAll(AddAll(p, a), b) == AddAll(p, a + b)
    decreases |b|
  {
    if b == [] {
      assert a + b == a;
    } else {
      var b' := b[..|b| - 1];
      assert (a + b)[..|a + b| - 1] == a + b';
      assert (a + b)[|a + b| - 1] == b[|b| - 1];
      AddAllAppend(p, a, b');
    }
  }

  /** The inner loop of the stream loop: merges one delta's fragments into
      the accumulator in place, one after the other. */
  method MergeFragments(p: Progress, fs: seq<Fragment>) returns (q: Progress)
    ensures q == AddAll(p, fs)
  {
    q := p;
    var j := 0;
    while j < |fs|
      invariant j <= |fs| && q == AddAll(p, fs[..j])
    {
      assert fs[..j + 1][..j] == fs[..j];
      q := AddFragment(q, fs[j]);
      j := j + 1;
    }
    assert fs[..|fs|] == fs;
  }

  /** `list(tool_calls_in_progress.values())` */
  function Values(p: Progress): seq<ToolCall>
    requires Keyed(p)
  {
    seq(|p.order|, k requires 0 <= k < |p.order| => p.calls[p.order[k]])
  }

  // ---- Reference definitions, read off the whole fragment sequence ----

  /** The fragments carrying index `i`, in arrival order. */
  function OfIndex(fs: seq<Fragment>, i: int): (r: seq<Fragment>)
    ensures forall k :: 0 <= k < |r| ==> r[k].index == i
  {
    if fs == [] then []
    else (if fs[0].index == i then [fs[0]] else []) + OfIndex(fs[1..], i)
  }

  /** The first non-empty name, or "" when there is none. */
  function FirstName(fs: seq<Fragment>): string
  {
    if fs == [] then "" else if fs[0].name != "" then fs[0].name else FirstName(fs[1..])
  }

  /** All argument texts, concatenated in arrival order. */
  function ConcatArgs(fs: seq<Fragment>): string
  {
    if fs == [] then "" else fs[0].arguments + ConcatArgs(fs[1..])
  }

  /** Position of the first fragment with index `i`. */
  function FirstPos(fs: seq<Fragment>, i: int): (k: nat)
    ensures k <= |fs|
    ensures k < |fs| ==> fs[k].index == i
    ensures forall j :: 0 <= j < k ==> fs[j].index != i
  {
    if fs == [] then 0 else if fs[0].index == i then 0 else 1 + FirstPos(fs[1..], i)
  }

  /** The call the fragments of one index describe: the first fragment's
      id, the first non-empty name, all argument texts concatenated. */
  function Reference(fs: seq<Fragment>): ToolCall
    requires fs != []
  {
    ToolCall(fs[0].id, "function", FirstName(fs), ConcatArgs(fs))
  }

  // ---- Adding one fragment at the end of the reference sequences ----

  lemma {:induction false} OfIndexSnoc(fs: seq<Fragment>, f: Fragment, i: int)
    ensures OfIndex(fs + [f], i) == OfIndex(fs, i) + (if f.index == i then [f] else [])
  {
    if fs != [] {
      assert (fs + [f])[1..] == fs[1..] + [f];
      OfIndexSnoc(fs[1..], f, i);
    }
  }

  lemma {:induction false} OfIndexEmpty(fs: seq<Fragment>, i: int)
    ensures OfIndex(fs, i) == [] <==> forall k :: 0 <= k < |fs| ==> fs[k].index != i
  {
    if fs != [] {
      OfIndexEmpty(fs[1..], i);
      assert forall k :: 1 <= k < |fs| ==> fs[k] == fs[1..][k - 1];
    }
  }

  lemma {:induction false} FirstNameSnoc(fs: seq<Fragment>, f: Fragment)
    ensures FirstName(fs + [f]) == if FirstName(fs) != "" then FirstName(fs) else f.name
  {
    if fs != [] {
      assert (fs + [f])[1..] == fs[1..] + [f];
      FirstNameSnoc(fs[1..], f);
    }
  }

  lemma {:induction false} ConcatArgsSnoc(fs: seq<Fragment>, f: Fragment)
    ensures ConcatArgs(fs + [f]) == ConcatArgs(fs) + f.arguments
  {
    if fs != [] {
      assert (fs + [f])[1..] == fs[1..] + [f];
      ConcatArgsSnoc(fs[1..], f);
    }
  }

  lemma {:induction false} FirstPosSnoc(fs: seq<Fragment>, f: Fragment, i: int)
    ensures FirstPos(fs, i) < |fs| ==> FirstPos(fs + [f], i) == FirstPos(fs, i)
    ensures FirstPos(fs, i) == |fs| ==> FirstPos(fs + [f], i) == if f.index == i then |fs| else |fs| + 1
  {
    if fs != [] {
      assert (fs + [f])[1..] == fs[1..] + [f];
      FirstPosSnoc(fs[1..], f, i);
    }
  }

  /** Its keys are exactly the indices that occur in `fs`. */
  ghost predicate KeysMatch(fs: seq<Fragment>, p: Progress)
  {
    forall i :: i in p.calls <==> OfIndex(fs, i) != []
  }

  /** Each index's call is `Reference` of that index's fragments. */
  ghost predicate ValuesMatch(fs: seq<Fragment>, p: Progress)
  {
    forall i :: i in p.calls ==> OfIndex(fs, i) != [] && p.calls[i] == Reference(OfIndex(fs, i))
  }

  /** The order lists indices by their first appearance in `fs`. */
  ghost predicate OrderMatches(fs: seq<Fragment>, p: Progress)
  {
    (forall k :: 0 <= k < |p.order| ==> FirstPos(fs, p.order[k]) < |fs|) &&
    (forall j, k :: 0 <= j < k < |p.order| ==> FirstPos(fs, p.order[j]) < FirstPos(fs, p.order[k]))
  }

  lemma {:induction false} AccumulatedKeys(fs: seq<Fragment>)
    ensures WellFormed(AddAll(Empty, fs)) && KeysMatch(fs, AddAll(Empty, fs))
  {
    if fs != [] {
      var a := fs[..|fs| - 1];
      var f := fs[|fs| - 1];
      assert fs == a + [f];
      AccumulatedKeys(a);
      var p := AddAll(Empty, a);
      assert AddAll(Empty, fs) == AddFragment(p, f);
      forall i ensures OfIndex(fs, i) == OfIndex(a, i) + (if f.index == i then [f] else []) {
        OfIndexSnoc(a, f, i);
      }
    }
  }

  /** Merging one more fragment keeps one index's call equal to its reference. */
  lemma {:induction false} ValueAfter(a: seq<Fragment>, f: Fragment, p: Progress, i: int)
    requires i in p.calls ==> OfIndex(a, i) != [] && p.calls[i] == Reference(OfIndex(a, i))
    requires i !in p.calls ==> OfIndex(a, i) == []
    requires i in AddFragment(p, f).calls
    ensures OfIndex(a + [f], i) != [] && AddFragment(p, f).calls[i] == Reference(OfIndex(a + [f], i))
  {
    OfIndexSnoc(a, f, i);
    if i != f.index {
      assert OfIndex(a + [f], i) == OfIndex(a, i);
    } else if i in p.calls {
      ValueExtended(OfIndex(a, i), f, p.calls[i]);
    } else {
      ValueOpened(OfIndex(a, i), f);
    }
  }

  /** A later fragment of an index extends that index's reference call. */
  lemma {:induction false} ValueExtended(o: seq<Fragment>, f: Fragment, c: ToolCall)
    requires o != [] && c == Reference(o)
    ensures Extend(c, f) == Reference(o + [f])
  {
    FirstNameSnoc(o, f);
    ConcatArgsSnoc(o, f);
    assert (o + [f])[0] == o[0];
  }

  /** The first fragment of an index opens that index's reference call. */
  lemma {:induction false} ValueOpened(o: seq<Fragment>, f: Fragment)
    requires o == []
    ensures o + [f] == [f] && Open(f) == Reference([f])
  {
    assert [f][1..] == [];
    assert ConcatArgs([f]) == f.arguments + "" == f.arguments;
    assert FirstName([f]) == f.name;
  }

  lemma {:induction false} AccumulatedValues(fs: seq<Fragment>)
    ensures ValuesMatch(fs, AddAll(Empty, fs))
  {
    if fs != [] {
      var a := fs[..|fs| - 1];
      var f := fs[|fs| - 1];
      assert fs == a + [f];
      AccumulatedValues(a);
      AccumulatedKeys(a);
      var p := AddAll(Empty, a);
      assert AddAll(Empty, fs) == AddFragment(p, f);
      forall i | i in AddFragment(p, f).calls
        ensures OfIndex(a + [f], i) != [] && AddFragment(p, f).calls[i] == Reference(OfIndex(a + [f], i))
      {
        ValueAfter(a, f, p, i);
      }
    }
  }

  lemma {:induction false} OrderAfter(a: seq<Fragment>, f: Fragment, p: Progress)
    requires WellFormed(p) && KeysMatch(a, p) && OrderMatches(a, p)
    ensures OrderMatches(a + [f], AddFragment(p, f))
  {
    forall k | 0 <= k < |p.order| ensures FirstPos(a + [f], p.order[k]) == FirstPos(a, p.order[k]) {
      FirstPosSnoc(a, f, p.order[k]);
    }
    if f.index !in p.calls {
      OfIndexEmpty(a, f.index);
      FirstPosSnoc(a, f, f.index);
      OrderAppended(x => FirstPos(a + [f], x), p.order, f.index, |a|, |a| + 1);
    }
  }

  /** An index first seen after all listed ones goes to the end of the order. */
  lemma {:induction false} OrderAppended(pos: int -> nat, order: seq<int>, i: int, n: nat, m: nat)
    requires forall k :: 0 <= k < |order| ==> pos(order[k]) < n
    requires forall j, k :: 0 <= j < k < |order| ==> pos(order[j]) < pos(order[k])
    requires pos(i) == n < m
    ensures forall k :: 0 <= k < |order + [i]| ==> pos((order + [i])[k]) < m
    ensures forall j, k :: 0 <= j < k < |order + [i]| ==> pos((order + [i])[j]) < pos((order + [i])[k])
  {
    assert forall k :: 0 <= k < |order| ==> (order + [i])[k] == order[k];
  }

  lemma {:induction false} AccumulatedOrder(fs: seq<Fragment>)
    ensures OrderMatches(fs, AddAll(Empty, fs))
  {
    if fs != [] {
      var a := fs[..|fs| - 1];
      var f := fs[|fs| - 1];
      assert fs == a + [f];
      AccumulatedOrder(a);
      AccumulatedKeys(a);
      assert AddAll(Empty, fs) == AddFragment(AddAll(Empty, a), f);
      OrderAfter(a, f, AddAll(Empty, a));
    }
  }

  /** The accumulator after merging `fs` into an empty one is well formed;
      its keys are the indices that occur; each index's call is exactly
      `Reference` of that index's fragments (id of the first fragment, first
      non-empty name, argument texts concatenated in arrival order); and the
      values come out in order of each index's first appearance. */
  lemma {:induction false} Accumulated(fs: seq<Fragment>)
    ensures WellFormed(AddAll(Empty, fs))
    ensures KeysMatch(fs, AddAll(Empty, fs))
    ensures ValuesMatch(fs, AddAll(Empty, fs))
    ensures OrderMatches(fs, AddAll(Empty, fs))
  {
    AccumulatedKeys(fs);
    AccumulatedValues(fs);
    AccumulatedOrder(fs);
  }
}
