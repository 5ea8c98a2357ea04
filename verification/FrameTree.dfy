/**
 Parsing of a browser frame tree with an explicit stack.
 Source: parse_frame_tree in adapters/browser-cdp/src/client.rs. Texts are UTF-8 bytes.
 */
module FrameTree {
  import opened Common
  import Sequences

  type Text = seq<byte>

  const MAX_FRAMES := 256
  const MAX_DEPTH := 64
  const MAX_TEXT := 1_048_576

  /** A JSON member: absent, not a string, or a string. */
  datatype Member = Absent | NotString | Str(text: Text)

  datatype RawFrame = RawFrame(id: Member, parentId: Member, loaderId: Member, url: Member, securityOrigin: Member)

  datatype Children = NoChildren | NotArray | Array(list: seq<Tree>)

  /** A JSON value standing for a frame subtree; `frame` is None when the member is not an object. */
  datatype Tree = NotObject | Tree(frame: Option<RawFrame>, children: Children)

  datatype Frame = Frame(id: Text, parentId: Option<Text>, loaderId: Text, url: Text, securityOrigin: Text)

  predicate ValidText(m: Member, max: nat) { m.Str? && 0 < |m.text| <= max }

  predicate ValidOptional(m: Member, max: nat) { m.Absent? || ValidText(m, max) }

  predicate Readable(t: Tree)
  {
    && t.Tree? && t.frame.Some? && !t.children.NotArray?
    && var f := t.frame.value;
       && ValidText(f.id, 4_096) && ValidOptional(f.parentId, 4_096) && ValidText(f.loaderId, 4_096)
       && ValidText(f.url, 32_768) && ValidText(f.securityOrigin, 4_096)
  }

  function Read(t: Tree): (f: Frame)
    requires Readable(t)
  {
    var r := t.frame.value;
    Frame(r.id.text, if r.parentId.Absent? then None else Some(r.parentId.text), r.loaderId.text, r.url.text, r.securityOrigin.text)
  }

  function Kids(t: Tree): (kids: seq<Tree>)
    requires t.Tree? && !t.children.NotArray?
  {
    if t.children.NoChildren? then [] else t.children.list
  }

  function TextBytes(f: Frame): (n: nat)
  {
    |f.id| + |f.loaderId| + |f.url| + |f.securityOrigin| + if f.parentId.Some? then |f.parentId.value| else 0
  }

  // ---- The recursive preorder ----

  /** A node with the parent and depth its place in the tree gives it. */
  datatype Visit = Visit(tree: Tree, parent: Option<Text>, depth: nat)

  /** The nodes in preorder; nothing below an unreadable node is a frame. */
  function Preorder(t: Tree, parent: Option<Text>, depth: nat): (visits: seq<Visit>)
    ensures |visits| >= 1 && visits[0] == Visit(t, parent, depth)
    decreases t, 1
  {
    [Visit(t, parent, depth)]
    + if Readable(t) then if t.children.NoChildren? then [] else PreorderAll(t.children.list, Some(Read(t).id), depth + 1)
      else []
  }

  function PreorderAll(kids: seq<Tree>, parent: Option<Text>, depth: nat): (visits: seq<Visit>)
    ensures |visits| >= |kids|
    decreases kids, 0
  {
    if kids == [] then [] else Preorder(kids[0], parent, depth) + PreorderAll(kids[1..], parent, depth)
  }

  predicate Placed(v: Visit)
  {
    v.depth <= MAX_DEPTH && Readable(v.tree) && Read(v.tree).parentId == v.parent
  }

  predicate AllPlaced(visits: seq<Visit>)
  {
    forall k :: 0 <= k < |visits| ==> Placed(visits[k])
  }

  function Frames(visits: seq<Visit>): (frames: seq<Frame>)
    requires AllPlaced(visits)
    ensures |frames| == |visits|
    ensures forall k :: 0 <= k < |frames| ==> frames[k] == Read(visits[k].tree)
  {
    seq(|visits|, k requires 0 <= k < |visits| && Placed(visits[k]) => Read(visits[k].tree))
  }

  predicate DistinctIds(frames: seq<Frame>)
  {
    forall j, k :: 0 <= j < k < |frames| ==> frames[j].id != frames[k].id
  }

  function TotalText(frames: seq<Frame>): (n: nat)
  {
    if frames == [] then 0 else TotalText(frames[..|frames| - 1]) + TextBytes(frames[|frames| - 1])
  }

  /** Everything the parser promises of an accepted tree. */
  predicate Acceptable(visits: seq<Visit>)
  {
    AllPlaced(visits) && |visits| <= MAX_FRAMES && DistinctIds(Frames(visits)) && TotalText(Frames(visits)) <= MAX_TEXT
  }

  // ---- What the preorder and an acceptable tree are ----

  /** A node and one of its children: one level deeper, under the node's id. */
  ghost predicate Child(parent: Visit, child: Visit)
  {
    && parent.tree.Tree? && parent.tree.children.Array? && child.tree in parent.tree.children.list && child.depth == parent.depth + 1
    && parent.tree.frame.Some? && parent.tree.frame.value.id.Str? && child.parent == Some(parent.tree.frame.value.id.text)
  }

  /** Every node but the first is a child of an earlier one. */
  ghost predicate ChildrenOf(visits: seq<Visit>, k: nat)
    requires k < |visits|
  {
    exists j :: 0 <= j < k && Child(visits[j], visits[k])
  }

  ghost predicate InPlace(root: Visit, visits: seq<Visit>)
  {
    visits != [] && visits[0] == root && forall k :: 0 < k < |visits| ==> ChildrenOf(visits, k)
  }

  lemma InPlaceMore(root: Visit, visits: seq<Visit>, more: seq<Visit>)
    requires InPlace(root, visits) && more != [] && InPlace(more[0], more) && Child(root, more[0])
    ensures InPlace(root, visits + more)
  {
    var all := visits + more;
    forall k | 0 < k < |all| ensures ChildrenOf(all, k) {
      if k < |visits| {
        assert ChildrenOf(visits, k);
        var j :| 0 <= j < k && Child(visits[j], visits[k]);
        assert Child(all[j], all[k]);
      } else if k == |visits| {
        assert Child(all[0], all[k]);
      } else {
        assert ChildrenOf(more, k - |visits|);
        var j :| 0 <= j < k - |visits| && Child(more[j], more[k - |visits|]);
        assert Child(all[|visits| + j], all[k]);
      }
    }
  }

  /** The preorder of a tree starts with it, and every other node stands below an earlier one, a level deeper and under its id. */
  lemma {:induction false} PreorderInPlace(t: Tree, parent: Option<Text>, depth: nat)
    ensures InPlace(Visit(t, parent, depth), Preorder(t, parent, depth))
    decreases t, 1
  {
    if Readable(t) && t.children.Array? {
      PreorderAllInPlace(t, parent, depth, t.children.list, [Visit(t, parent, depth)]);
    } else {
      assert Preorder(t, parent, depth) == [Visit(t, parent, depth)];
    }
  }

  lemma {:induction false} PreorderAllInPlace(t: Tree, parent: Option<Text>, depth: nat, kids: seq<Tree>, before: seq<Visit>)
    requires Readable(t) && t.children.Array? && (forall kid :: kid in kids ==> kid in t.children.list)
    requires InPlace(Visit(t, parent, depth), before)
    ensures InPlace(Visit(t, parent, depth), before + PreorderAll(kids, Some(Read(t).id), depth + 1))
    decreases kids, 0
  {
    if kids == [] {
      assert before + [] == before;
    } else {
      var one, rest := Preorder(kids[0], Some(Read(t).id), depth + 1), PreorderAll(kids[1..], Some(Read(t).id), depth + 1);
      PreorderInPlace(kids[0], Some(Read(t).id), depth + 1);
      assert Child(Visit(t, parent, depth), one[0]);
      InPlaceMore(Visit(t, parent, depth), before, one);
      PreorderAllInPlace(t, parent, depth, kids[1..], before + one);
      Sequences.Associate(before, one, rest);
    }
  }

  /** Every child of a node is visited, and siblings in their order. */
  lemma {:induction false} SiblingsInOrder(kids: seq<Tree>, parent: Option<Text>, depth: nat, i: nat, j: nat) returns (p: nat, q: nat)
    requires i < j < |kids|
    ensures var visits := PreorderAll(kids, parent, depth);
            p < q < |visits| && visits[p] == Visit(kids[i], parent, depth) && visits[q] == Visit(kids[j], parent, depth)
    decreases i
  {
    var first, rest := Preorder(kids[0], parent, depth), PreorderAll(kids[1..], parent, depth);
    if i == 0 {
      p := 0;
      q := ChildAt(kids[1..], parent, depth, j - 1);
    } else {
      p, q := SiblingsInOrder(kids[1..], parent, depth, i - 1, j - 1);
      p := p + |first|;
    }
    q := q + |first|;
    assert (first + rest)[q] == rest[q - |first|];
  }

  lemma {:induction false} ChildAt(kids: seq<Tree>, parent: Option<Text>, depth: nat, j: nat) returns (q: nat)
    requires j < |kids|
    ensures var visits := PreorderAll(kids, parent, depth); q < |visits| && visits[q] == Visit(kids[j], parent, depth)
    decreases j
  {
    if j == 0 {
      q := 0;
    } else {
      q := ChildAt(kids[1..], parent, depth, j - 1);
      q := q + |Preorder(kids[0], parent, depth)|;
    }
  }

  /** A raw member holds this text, within a length. */
  predicate Holds(m: Member, text: Text, max: nat) { m == Str(text) && 1 <= |text| <= max }

  /** The frame a raw node shows, member by member. */
  predicate Shows(t: Tree, f: Frame)
  {
    && t.Tree? && t.frame.Some? && t.children != NotArray
    && var raw := t.frame.value;
       && Holds(raw.id, f.id, 4_096) && Holds(raw.loaderId, f.loaderId, 4_096) && Holds(raw.url, f.url, 32_768)
       && Holds(raw.securityOrigin, f.securityOrigin, 4_096)
       && match f.parentId
          case None => raw.parentId == Absent
          case Some(parent) => Holds(raw.parentId, parent, 4_096)
  }

  function Lengths(f: Frame): (ns: seq<nat>)
  {
    [|f.id|, |f.loaderId|, |f.url|, |f.securityOrigin|] + match f.parentId case None => [] case Some(parent) => [|parent|]
  }

  function Sum(ns: seq<nat>): (n: nat) { if ns == [] then 0 else Sum(ns[..|ns| - 1]) + ns[|ns| - 1] }

  /** The frames of visited nodes: each shows its node under its structural parent and within the depth, ids differ, and bounds hold. */
  ghost predicate Describes(visits: seq<Visit>, frames: seq<Frame>)
  {
    && |frames| == |visits| && |frames| <= 256
    && (forall k :: 0 <= k < |frames| ==> Shows(visits[k].tree, frames[k]) && frames[k].parentId == visits[k].parent && visits[k].depth <= 64)
    && (forall j, k :: 0 <= j < k < |frames| ==> frames[j].id != frames[k].id)
    && Sum(Sequences.Collect(Lengths, frames)) <= 1_048_576
  }

  lemma ReadShows(t: Tree, f: Frame)
    ensures Shows(t, f) <==> Readable(t) && Read(t) == f
  {
  }

  lemma {:induction false} SumConcat(a: seq<nat>, b: seq<nat>)
    ensures Sum(a + b) == Sum(a) + Sum(b)
    decreases |b|
  {
    if b == [] {
      assert a + b == a;
    } else {
      assert (a + b)[..|a + b| - 1] == a + b[..|b| - 1];
      SumConcat(a, b[..|b| - 1]);
    }
  }

  lemma LengthsSum(f: Frame)
    ensures Sum(Lengths(f)) == TextBytes(f)
  {
    var one := [|f.id|];
    var two := one + [|f.loaderId|];
    var three := two + [|f.url|];
    var four := three + [|f.securityOrigin|];
    assert one[..0] == [] && two[..1] == one && three[..2] == two && four[..3] == three;
    assert Sum(one) == |f.id| && Sum(two) == Sum(one) + |f.loaderId| && Sum(three) == Sum(two) + |f.url|;
    if f.parentId.Some? {
      assert [|f.parentId.value|][..0] == [];
      SumConcat(four, [|f.parentId.value|]);
      assert Lengths(f) == four + [|f.parentId.value|];
    } else {
      assert Lengths(f) == four;
    }
  }

  lemma {:induction false} TotalIsSum(frames: seq<Frame>)
    ensures TotalText(frames) == Sum(Sequences.Collect(Lengths, frames))
    decreases |frames|
  {
    if frames == [] {
    } else {
      var init, last := frames[..|frames| - 1], frames[|frames| - 1];
      TotalIsSum(init);
      LengthsSum(last);
      SumConcat(Sequences.Collect(Lengths, init), Lengths(last));
    }
  }

  /** A tree is acceptable exactly when its visited nodes have a description, and the frames read are the one description. */
  lemma AcceptableIsDescribed(visits: seq<Visit>, frames: seq<Frame>)
    ensures Describes(visits, frames) <==> Acceptable(visits) && frames == Frames(visits)
  {
    if Describes(visits, frames) {
      forall k | 0 <= k < |visits| ensures Placed(visits[k]) && Read(visits[k].tree) == frames[k] {
        ReadShows(visits[k].tree, frames[k]);
      }
      assert frames == Frames(visits);
      TotalIsSum(frames);
    }
    if Acceptable(visits) && frames == Frames(visits) {
      forall k | 0 <= k < |visits| ensures Shows(visits[k].tree, frames[k]) && frames[k].parentId == visits[k].parent && visits[k].depth <= 64 {
        assert Placed(visits[k]);
        ReadShows(visits[k].tree, frames[k]);
      }
      TotalIsSum(frames);
    }
  }

  // ---- The stack ----

  /** What a stack still has to visit, top (the end) first. */
  function Remaining(pending: seq<Visit>): (visits: seq<Visit>)
    ensures |visits| >= |pending|
  {
    if pending == [] then []
    else
      var top := pending[|pending| - 1];
      Preorder(top.tree, top.parent, top.depth) + Remaining(pending[..|pending| - 1])
  }

  lemma PushOne(pending: seq<Visit>, v: Visit)
    ensures Remaining(pending + [v]) == Preorder(v.tree, v.parent, v.depth) + Remaining(pending)
  {
    assert (pending + [v])[..|pending|] == pending;
  }

  lemma {:induction false} PreorderAllStep(kids: seq<Tree>, j: nat, parent: Option<Text>, depth: nat)
    requires j < |kids|
    ensures PreorderAll(kids[j..], parent, depth) == Preorder(kids[j], parent, depth) + PreorderAll(kids[j + 1..], parent, depth)
  {
    var from := kids[j..];
    assert from[0] == kids[j] && from[1..] == kids[j + 1..];
  }

  /** Pushes children in reverse, so that the first child is visited next. */
  method PushChildren(pending: seq<Visit>, kids: seq<Tree>, parent: Option<Text>, depth: nat) returns (r: seq<Visit>)
    ensures Remaining(r) == PreorderAll(kids, parent, depth) + Remaining(pending)
    ensures |r| == |pending| + |kids|
  {
    r := pending;
    for j := |kids| downto 0
      invariant |r| == |pending| + |kids| - j
      invariant Remaining(r) == PreorderAll(kids[j..], parent, depth) + Remaining(pending)
    {
      PushOne(r, Visit(kids[j], parent, depth));
      PreorderAllStep(kids, j, parent, depth);
      Sequences.Associate(Preorder(kids[j], parent, depth), PreorderAll(kids[j + 1..], parent, depth), Remaining(pending));
      r := r + [Visit(kids[j], parent, depth)];
    }
    assert kids[0..] == kids;
  }

  // ---- Why a rejection is right ----

  lemma Misplaced(done: seq<Visit>, v: Visit, rest: seq<Visit>)
    requires !Placed(v)
    ensures !Acceptable(done + ([v] + rest))
  {
    assert (done + ([v] + rest))[|done|] == v;
  }

  lemma TooMany(visits: seq<Visit>)
    requires |visits| > MAX_FRAMES
    ensures !Acceptable(visits)
  {
  }

  lemma DuplicateId(done: seq<Visit>, v: Visit, rest: seq<Visit>, j: nat)
    requires AllPlaced(done) && Placed(v) && j < |done| && Read(done[j].tree).id == Read(v.tree).id
    ensures !Acceptable(done + ([v] + rest))
  {
    var all := done + ([v] + rest);
    if AllPlaced(all) {
      assert all[j] == done[j] && all[|done|] == v;
      assert Frames(all)[j].id == Frames(all)[|done|].id;
    }
  }

  lemma {:induction false} TotalTextGrows(a: seq<Frame>, b: seq<Frame>)
    ensures TotalText(a) <= TotalText(a + b)
    decreases |b|
  {
    if b == [] {
      assert a + b == a;
    } else {
      assert (a + b)[..|a + b| - 1] == a + b[..|b| - 1];
      TotalTextGrows(a, b[..|b| - 1]);
    }
  }

  lemma FramesConcat(done: seq<Visit>, rest: seq<Visit>)
    requires AllPlaced(done) && AllPlaced(rest) && AllPlaced(done + rest)
    ensures Frames(done + rest) == Frames(done) + Frames(rest)
  {
  }

  lemma PlacedParts(done: seq<Visit>, rest: seq<Visit>)
    requires AllPlaced(done + rest)
    ensures AllPlaced(rest)
  {
    forall k | 0 <= k < |rest| ensures Placed(rest[k]) {
      assert rest[k] == (done + rest)[|done| + k];
    }
  }

  lemma TooMuchText(done: seq<Visit>, rest: seq<Visit>)
    requires AllPlaced(done) && TotalText(Frames(done)) > MAX_TEXT
    ensures !Acceptable(done + rest)
  {
    if AllPlaced(done + rest) {
      PlacedParts(done, rest);
      FramesConcat(done, rest);
      TotalTextGrows(Frames(done), Frames(rest));
    }
  }

  // ---- The parser ----

  /** The parser's variables after visiting the nodes `done`. */
  ghost predicate Tracks(done: seq<Visit>, frames: seq<Frame>, identities: set<Text>, textBytes: nat)
  {
    && AllPlaced(done) && frames == Frames(done) && DistinctIds(frames) && |frames| <= MAX_FRAMES
    && (forall id :: id in identities <==> HasId(frames, id))
    && textBytes == TotalText(frames) <= MAX_TEXT
  }

  predicate HasId(frames: seq<Frame>, id: Text)
  {
    exists k :: 0 <= k < |frames| && frames[k].id == id
  }

  datatype Checked = Rejected | Accepted(frame: Frame)

  /** The checks on one popped node: place, identity and text budget. */
  method CheckNode(ghost done: seq<Visit>, ghost rest: seq<Visit>, frames: seq<Frame>, identities: set<Text>, textBytes: nat, v: Visit)
    returns (r: Checked)
    requires Tracks(done, frames, identities, textBytes)
    ensures r.Rejected? ==> !Acceptable(done + ([v] + rest))
    ensures r.Accepted? ==> Placed(v) && |frames| < MAX_FRAMES && r.frame == Read(v.tree)
                            && r.frame.id !in identities && textBytes + TextBytes(r.frame) <= MAX_TEXT
  {
    if v.depth > MAX_DEPTH || |frames| >= MAX_FRAMES || !Readable(v.tree) || Read(v.tree).parentId != v.parent {
      if !Placed(v) { Misplaced(done, v, rest); } else { TooMany(done + ([v] + rest)); }
      return Rejected;
    }
    var f := Read(v.tree);
    if f.id in identities {
      ghost var j :| 0 <= j < |frames| && frames[j].id == f.id;
      DuplicateId(done, v, rest, j);
      return Rejected;
    }
    if textBytes + TextBytes(f) > MAX_TEXT {
      NextFrame(done, v);
      TooMuchText(done + [v], rest);
      assert done + [v] + rest == done + ([v] + rest);
      return Rejected;
    }
    return Accepted(f);
  }

  lemma NextFrame(done: seq<Visit>, v: Visit)
    requires AllPlaced(done) && Placed(v)
    ensures AllPlaced(done + [v])
    ensures Frames(done + [v]) == Frames(done) + [Read(v.tree)]
    ensures TotalText(Frames(done + [v])) == TotalText(Frames(done)) + TextBytes(Read(v.tree))
  {
    assert (Frames(done) + [Read(v.tree)])[..|done|] == Frames(done);
  }

  lemma TracksNext(done: seq<Visit>, frames: seq<Frame>, identities: set<Text>, textBytes: nat, v: Visit)
    requires Tracks(done, frames, identities, textBytes) && Placed(v) && |frames| < MAX_FRAMES
    requires Read(v.tree).id !in identities && textBytes + TextBytes(Read(v.tree)) <= MAX_TEXT
    ensures var f := Read(v.tree); Tracks(done + [v], frames + [f], identities + {f.id}, textBytes + TextBytes(f))
  {
    var f := Read(v.tree);
    NextFrame(done, v);
    var more := frames + [f];
    assert !HasId(frames, f.id);
    forall id
      ensures HasId(more, id) <==> HasId(frames, id) || id == f.id
    {
      assert more[|frames|] == f;
      assert forall k :: 0 <= k < |frames| ==> more[k] == frames[k];
    }
  }

  /** What follows a node in its own preorder. */
  function Below(v: Visit): (visits: seq<Visit>)
  {
    Preorder(v.tree, v.parent, v.depth)[1..]
  }

  /** A popped node splits off the front of what remains. */
  lemma PopTop(done: seq<Visit>, pending: seq<Visit>)
    requires pending != []
    ensures var v, others := pending[|pending| - 1], pending[..|pending| - 1];
            && done + Remaining(pending) == done + ([v] + (Below(v) + Remaining(others)))
            && done + Remaining(pending) == done + [v] + (Below(v) + Remaining(others))
            && |Remaining(pending)| == 1 + |Below(v) + Remaining(others)|
  {
    var v, others := pending[|pending| - 1], pending[..|pending| - 1];
    var first := Preorder(v.tree, v.parent, v.depth);
    assert first == [v] + first[1..];
    assert [v] + first[1..] + Remaining(others) == [v] + (first[1..] + Remaining(others));
    Sequences.Associate(done, [v], first[1..] + Remaining(others));
  }

  lemma BelowIsKids(v: Visit)
    requires Readable(v.tree)
    ensures Below(v) == PreorderAll(Kids(v.tree), Some(Read(v.tree).id), v.depth + 1)
  {
  }

  lemma Finished(done: seq<Visit>, frames: seq<Frame>, identities: set<Text>, textBytes: nat)
    requires Tracks(done, frames, identities, textBytes)
    ensures Acceptable(done) && frames == Frames(done)
  {
  }

  /** The loop, from any stack: accepts exactly when everything that remains is acceptable. */
  method ParseStack(initial: seq<Visit>) returns (r: Option<seq<Frame>>)
    ensures r.Some? <==> Acceptable(Remaining(initial))
    ensures r.Some? ==> r.value == Frames(Remaining(initial))
  {
    ghost var all := Remaining(initial);
    ghost var done: seq<Visit> := [];
    var pending := initial;
    var frames: seq<Frame> := [];
    var identities: set<Text> := {};
    var textBytes: nat := 0;
    while pending != []
      invariant all == done + Remaining(pending)
      invariant Tracks(done, frames, identities, textBytes)
      decreases |Remaining(pending)|
    {
      var v := pending[|pending| - 1];
      PopTop(done, pending);
      pending := pending[..|pending| - 1];
      var checked := CheckNode(done, Below(v) + Remaining(pending), frames, identities, textBytes, v);
      if checked.Rejected? {
        return None;
      }
      TracksNext(done, frames, identities, textBytes, v);
      done := done + [v];
      frames := frames + [checked.frame];
      identities := identities + {checked.frame.id};
      textBytes := textBytes + TextBytes(checked.frame);
      var kids := Kids(v.tree);
      BelowIsKids(v);
      if |frames| + |pending| + |kids| > MAX_FRAMES {
        TooMany(all);
        return None;
      }
      pending := PushChildren(pending, kids, Some(checked.frame.id), v.depth + 1);
    }
    assert done + [] == done;
    Finished(done, frames, identities, textBytes);
    return Some(frames);
  }

  /** Accepts exactly the acceptable trees, and returns their frames in preorder. A missing tree is rejected. */
  method ParseFrameTree(input: Option<Tree>) returns (r: Option<seq<Frame>>)
    ensures input.None? ==> r.None?
    ensures input.Some? ==>
              var visits := Preorder(input.value, None, 0);
              && (r.Some? <==> exists frames :: Describes(visits, frames))
              && (r.Some? ==> Describes(visits, r.value) && r.value != [])
  {
    if input.None? {
      return None;
    }
    var root := Visit(input.value, None, 0);
    PushOne([], root);
    assert [] + [root] == [root] && Remaining([]) == [];
    assert Preorder(input.value, None, 0) + [] == Preorder(input.value, None, 0);
    r := ParseStack([root]);
    forall frames ensures Describes(Preorder(input.value, None, 0), frames) ==> Acceptable(Preorder(input.value, None, 0)) {
      AcceptableIsDescribed(Preorder(input.value, None, 0), frames);
    }
    if r.Some? {
      AcceptableIsDescribed(Preorder(input.value, None, 0), r.value);
    }
  }
}
