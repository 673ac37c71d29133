/** The script that moves a pulled OCI artifact into the model cache, interrupted at will. */
module Promotion {
  import opened Common

  type Path = seq<string>

  datatype Node = File(content: seq<int>) | Dir | Link

  type Tree = map<Path, Node>

  const Marker: Path := [".noctaya-ready"]

  // What persists on the cache volume: the destination and its ".partial" sibling, if they exist.
  datatype Volume = Volume(dst: Option<Tree>, partial: Option<Tree>)

  /** The test that the script and the waiting init container make. */
  predicate Marked(dst: Option<Tree>) {
    dst.Some? && Marker in dst.value && dst.value[Marker].File?
  }

  /** The destination is the whole artifact, with at most the marker added. */
  predicate Whole(dst: Option<Tree>, src: Tree) {
    dst.Some? && dst.value - {Marker} == src - {Marker} && (Marker in src ==> dst.value == src)
  }

  predicate Trustworthy(dst: Option<Tree>, src: Tree) {
    Marked(dst) ==> Whole(dst, src)
  }

  predicate NoLinks(src: Tree) {
    forall p :: p in src ==> !src[p].Link?
  }

  // ---- attempts that may stop anywhere ----

  datatype Pc = Idle | Check | Scan | ClearPartial | Make | Copy | ClearDst | Replace | Touch

  datatype State = State(pc: Pc, volume: Volume)

  datatype Action =
    | Begin                           // a container starts the script
    | Crash                           // it stops, in whatever state the volume is
    | Proceed                         // the script goes on to, or performs, its next statement
    | Remove(path: Path)              // rmtree removes one entry
    | Write(path: Path, length: nat)  // copytree creates an entry, a file with its first `length` items

  function Put(s: State, volume: Volume, pc: Pc): Option<State> {
    Some(s.(volume := volume, pc := pc))
  }

  function RemoveEntry(t: Option<Tree>, path: Path): Option<Tree> {
    if t.Some? then Some(t.value - {path}) else None
  }

  function Copied(node: Node, length: nat): Node {
    if node.File? && length < |node.content| then File(node.content[..length]) else node
  }

  function ProceedStep(s: State, src: Tree): Option<State> {
    var v := s.volume;
    match s.pc
    case Idle => None
    case Check => Put(s, v, if Marked(v.dst) then Idle else Scan)
    case Scan => Put(s, v, if NoLinks(src) then ClearPartial else Idle)
    // rmtree ignores errors: it may go on although something is left
    case ClearPartial => Put(s, if v.partial == Some(map[]) then v.(partial := None) else v, Make)
    // copytree refuses an existing directory
    case Make => if v.partial.Some? then Put(s, v, Idle) else Put(s, v.(partial := Some(map[])), Copy)
    case Copy => if v.partial == Some(src) then Put(s, v, ClearDst) else None
    case ClearDst => Put(s, if v.dst == Some(map[]) then v.(dst := None) else v, Replace)
    // rename refuses a destination that is not empty
    case Replace =>
      if v.dst.None? || v.dst == Some(map[]) then Put(s, Volume(v.partial, None), Touch) else Put(s, v, Idle)
    case Touch => Put(s, v.(dst := Touched(v.dst)), Idle)
  }

  function Touched(dst: Option<Tree>): Option<Tree> {
    if dst.Some? && Marker !in dst.value then Some(dst.value[Marker := File([])]) else dst
  }

  function Step(s: State, a: Action, src: Tree): Option<State> {
    var v := s.volume;
    match a
    case Begin => if s.pc.Idle? then Some(s.(pc := Check)) else None
    case Crash => Some(s.(pc := Idle))
    case Proceed => ProceedStep(s, src)
    case Remove(path) =>
      if s.pc.ClearPartial? then Put(s, v.(partial := RemoveEntry(v.partial, path)), s.pc)
      else if s.pc.ClearDst? then Put(s, v.(dst := RemoveEntry(v.dst, path)), s.pc)
      else None
    case Write(path, length) =>
      if s.pc.Copy? && v.partial.Some? && path in src
      then Put(s, v.(partial := Some(v.partial.value[path := Copied(src[path], length)])), s.pc)
      else None
  }

  predicate Run(states: seq<State>, actions: seq<Action>, src: Tree) {
    && |states| == |actions| + 1
    && states[0].pc.Idle? && Trustworthy(states[0].volume.dst, src)
    && forall k {:trigger actions[k]} :: 0 <= k < |actions| ==> Step(states[k], actions[k], src) == Some(states[k + 1])
  }

  // Between its check and the rename the script deals with an unmarked destination; when it renames,
  // the sibling is the artifact, and then so is the destination.
  predicate Inv(s: State, src: Tree) {
    && Trustworthy(s.volume.dst, src)
    && (s.pc in {Scan, ClearPartial, Make, Copy, ClearDst, Replace} ==> !Marked(s.volume.dst))
    && (s.pc in {ClearDst, Replace} ==> s.volume.partial == Some(src))
    && (s.pc.Touch? ==> s.volume.dst == Some(src))
  }

  lemma StepInv(s: State, a: Action, src: Tree, t: State)
    requires Inv(s, src) && Step(s, a, src) == Some(t)
    ensures Inv(t, src)
  {
  }

  /** After any number of attempts, each interrupted anywhere, a readiness marker means that the
      destination is the whole artifact. */
  lemma {:induction false} MarkerMeansWhole(states: seq<State>, actions: seq<Action>, src: Tree, k: nat)
    requires Run(states, actions, src) && k < |states|
    ensures Inv(states[k], src)
    ensures Marked(states[k].volume.dst) ==> Whole(states[k].volume.dst, src)
  {
    if k > 0 {
      MarkerMeansWhole(states, actions, src, k - 1);
      assert Step(states[k - 1], actions[k - 1], src) == Some(states[k]);
      StepInv(states[k - 1], actions[k - 1], src, states[k]);
    }
  }

  /** Once the marker is there, no later attempt touches the destination again. */
  lemma {:induction false} MarkedIsFinal(states: seq<State>, actions: seq<Action>, src: Tree, i: nat, j: nat)
    requires Run(states, actions, src) && i <= j < |states| && Marked(states[i].volume.dst)
    ensures states[j].volume.dst == states[i].volume.dst
    decreases j - i
  {
    if i < j {
      MarkedIsFinal(states, actions, src, i, j - 1);
      MarkerMeansWhole(states, actions, src, j - 1);
      assert Step(states[j - 1], actions[j - 1], src) == Some(states[j]);
    }
  }

  // ---- what an interrupted attempt leaves ----

  // Steps `i` to `j` belong to one attempt, which begins with step `i`.
  predicate OneAttempt(actions: seq<Action>, i: nat, j: nat) {
    i < j <= |actions| && actions[i].Begin? && forall k :: i < k < j ==> !actions[k].Begin?
  }

  predicate TouchesDst(pc: Pc) {
    pc.ClearDst? || pc.Replace? || pc.Touch?
  }

  /** An attempt that is stopped before it begins to clear the destination leaves it as it was. */
  lemma {:induction false} EarlyStopKeepsDst(states: seq<State>, actions: seq<Action>, src: Tree, i: nat, j: nat)
    requires Run(states, actions, src) && i <= j < |states|
    requires forall k :: i <= k < j ==> !TouchesDst(states[k].pc)
    ensures states[j].volume.dst == states[i].volume.dst
    decreases j - i
  {
    if i < j {
      EarlyStopKeepsDst(states, actions, src, i, j - 1);
      assert Step(states[j - 1], actions[j - 1], src) == Some(states[j]);
    }
  }

  /** The steps that take something away from the destination or put the copy in its place. */
  predicate Disturbs(s: State, a: Action) {
    var dst := s.volume.dst;
    || (s.pc.ClearDst? && a.Remove? && dst.Some? && a.path in dst.value)
    || (s.pc.ClearDst? && a.Proceed? && dst == Some(map[]))
    || Renames(s, a)
  }

  predicate Renames(s: State, a: Action) {
    s.pc.Replace? && a.Proceed? && (s.volume.dst.None? || s.volume.dst == Some(map[]))
  }

  // The old destination is gone: reduced, removed, or replaced by the copy.
  predicate Lost(found: Option<Tree>, s: State, src: Tree) {
    || (found.Some? && (s.volume.dst.None? || s.volume.dst.value.Keys < found.value.Keys))
    || ((s.pc.Touch? || s.pc.Idle?) && s.volume.dst in {Some(src), Touched(Some(src))})
  }

  lemma LostStep(found: Option<Tree>, s: State, a: Action, src: Tree, t: State)
    requires Inv(s, src) && Step(s, a, src) == Some(t) && !a.Begin?
    requires Lost(found, s, src) || (s.volume.dst == found && Disturbs(s, a))
    ensures Lost(found, t, src)
  {
  }

  lemma CalmStep(s: State, a: Action, src: Tree, t: State)
    requires Inv(s, src) && Step(s, a, src) == Some(t) && !Disturbs(s, a) && !s.pc.Touch?
    ensures t.volume.dst == s.volume.dst && !t.pc.Touch?
  {
    if a.Remove? && s.pc.ClearDst? && s.volume.dst.Some? {
      assert s.volume.dst.value - {a.path} == s.volume.dst.value;
    }
  }

  // No step from `i` to `j` disturbs the destination.
  predicate Calm(states: seq<State>, actions: seq<Action>, i: nat, j: nat)
    requires j <= |actions| < |states|
  {
    forall k {:trigger Disturbs(states[k], actions[k])} :: i <= k < j ==> !Disturbs(states[k], actions[k])
  }

  lemma CalmExtends(states: seq<State>, actions: seq<Action>, i: nat, j: nat)
    requires i < j <= |actions| < |states|
    ensures Calm(states, actions, i, j) <==> Calm(states, actions, i, j - 1) && !Disturbs(states[j - 1], actions[j - 1])
  {
  }

  // Where an attempt that found the destination `found` stands.
  predicate Stands(found: Option<Tree>, s: State, src: Tree, calm: bool) {
    if calm then s.volume.dst == found && !s.pc.Touch? else Lost(found, s, src)
  }

  lemma StandsStep(found: Option<Tree>, s: State, a: Action, src: Tree, t: State, calm: bool)
    requires Inv(s, src) && Step(s, a, src) == Some(t) && !a.Begin? && Stands(found, s, src, calm)
    ensures Stands(found, t, src, calm && !Disturbs(s, a))
  {
    if calm && !Disturbs(s, a) {
      CalmStep(s, a, src, t);
    } else {
      LostStep(found, s, a, src, t);
    }
  }

  lemma RunStep(states: seq<State>, actions: seq<Action>, src: Tree, k: nat)
    requires Run(states, actions, src) && k < |actions|
    ensures Inv(states[k], src) && Step(states[k], actions[k], src) == Some(states[k + 1])
  {
    MarkerMeansWhole(states, actions, src, k);
  }

  lemma Begun(s: State, src: Tree, t: State)
    requires Step(s, Begin, src) == Some(t)
    ensures !Disturbs(s, Begin) && Stands(s.volume.dst, t, src, true)
  {
  }

  lemma {:induction false} AttemptSoFar(states: seq<State>, actions: seq<Action>, src: Tree, i: nat, j: nat)
    requires Run(states, actions, src) && OneAttempt(actions, i, j)
    ensures Stands(states[i].volume.dst, states[j], src, Calm(states, actions, i, j))
    decreases j - i
  {
    RunStep(states, actions, src, j - 1);
    CalmExtends(states, actions, i, j);
    if i + 1 == j {
      Begun(states[i], src, states[j]);
      assert Calm(states, actions, i, j);
    } else {
      AttemptSoFar(states, actions, src, i, j - 1);
      var calm := Calm(states, actions, i, j - 1);
      StandsStep(states[i].volume.dst, states[j - 1], actions[j - 1], src, states[j], calm);
    }
  }

  /** Wherever an attempt is stopped, the destination it found is still there exactly if none of its
      steps removed an entry from it, removed it, or renamed the copy over it. Only a destination that
      already is the artifact cannot tell the difference. */
  lemma LeftAloneExactly(states: seq<State>, actions: seq<Action>, src: Tree, i: nat, j: nat)
    requires Run(states, actions, src) && OneAttempt(actions, i, j)
    requires states[i].volume.dst !in {Some(src), Touched(Some(src))}
    ensures states[j].volume.dst == states[i].volume.dst <==> Calm(states, actions, i, j)
  {
    AttemptSoFar(states, actions, src, i, j);
  }

  /** From a volume without destination, an attempt leaves nothing but the ".partial" sibling exactly
      if it is stopped before the rename. */
  lemma OnlyPartialExactly(states: seq<State>, actions: seq<Action>, src: Tree, i: nat, j: nat)
    requires Run(states, actions, src) && OneAttempt(actions, i, j) && states[i].volume.dst.None?
    ensures states[j].volume.dst.None? <==>
            forall k {:trigger Renames(states[k], actions[k])} :: i <= k < j ==> !Renames(states[k], actions[k])
  {
    LeftAloneExactly(states, actions, src, i, j);
    if !Calm(states, actions, i, j) {
      var k := FirstDisturbance(states, actions, i, j);
      if i < k { AttemptSoFar(states, actions, src, i, k); }
      assert Renames(states[k], actions[k]);
    } else {
      forall k | i <= k < j ensures !Renames(states[k], actions[k]) {
        assert !Disturbs(states[k], actions[k]);
      }
    }
  }

  lemma {:induction false} FirstDisturbance(states: seq<State>, actions: seq<Action>, i: nat, j: nat) returns (k: nat)
    requires i < j <= |actions| < |states| && !Calm(states, actions, i, j)
    ensures i <= k < j && Calm(states, actions, i, k) && Disturbs(states[k], actions[k])
    decreases j
  {
    if Calm(states, actions, i, j - 1) {
      k := j - 1;
    } else {
      k := FirstDisturbance(states, actions, i, j - 1);
    }
  }

  // ---- runs that leave more than the sibling ----

  /** Some run, beginning with an empty volume, ends in `s`. */
  ghost predicate Reachable(s: State, src: Tree) {
    exists states: seq<State>, actions: seq<Action> ::
      Run(states, actions, src) && states[0] == State(Idle, Volume(None, None)) && states[|states| - 1] == s
  }

  lemma Reach(s: State, a: Action, src: Tree, t: State)
    requires Reachable(s, src) && Step(s, a, src) == Some(t)
    ensures Reachable(t, src)
  {
    var states: seq<State>, actions: seq<Action> :|
      Run(states, actions, src) && states[0] == State(Idle, Volume(None, None)) && states[|states| - 1] == s;
    var states', actions' := states + [t], actions + [a];
    forall k | 0 <= k < |actions'| ensures Step(states'[k], actions'[k], src) == Some(states'[k + 1]) {
      if k < |actions| { assert actions'[k] == actions[k]; }
    }
    assert Run(states', actions', src) && states'[|states'| - 1] == t;
  }

  // An artifact of two files.
  function Two(p: Path, q: Path, a: seq<int>, b: seq<int>): Tree {
    map[p := File(a), q := File(b)]
  }

  /** An attempt on an unmarked destination gets as far as clearing it, its copy complete. */
  lemma ReachClearing(p: Path, q: Path, a: seq<int>, b: seq<int>, dst: Option<Tree>)
    requires p != q && p != Marker && q != Marker && !Marked(dst)
    requires Reachable(State(Idle, Volume(dst, None)), Two(p, q, a, b))
    ensures Reachable(State(ClearDst, Volume(dst, Some(Two(p, q, a, b)))), Two(p, q, a, b))
  {
    var src := Two(p, q, a, b);
    var v := Volume(dst, None);
    Reach(State(Idle, v), Begin, src, State(Check, v));
    Reach(State(Check, v), Proceed, src, State(Scan, v));
    Reach(State(Scan, v), Proceed, src, State(ClearPartial, v));
    Reach(State(ClearPartial, v), Proceed, src, State(Make, v));
    var v1 := Volume(dst, Some(map[]));
    Reach(State(Make, v), Proceed, src, State(Copy, v1));
    var v2 := Volume(dst, Some(map[p := File(a)]));
    Reach(State(Copy, v1), Write(p, |a|), src, State(Copy, v2));
    assert map[p := File(a)][q := File(b)] == src;
    Reach(State(Copy, v2), Write(q, |b|), src, State(Copy, Volume(dst, Some(src))));
    Reach(State(Copy, Volume(dst, Some(src))), Proceed, src, State(ClearDst, Volume(dst, Some(src))));
  }

  /** Stopped between the rename and the marker, an attempt leaves a complete destination that is not
      marked, and no sibling. */
  lemma CompleteButUnmarked(p: Path, q: Path, a: seq<int>, b: seq<int>) returns (s: State)
    requires p != q && p != Marker && q != Marker
    ensures Reachable(s, Two(p, q, a, b)) && s.pc.Idle?
    ensures s.volume == Volume(Some(Two(p, q, a, b)), None) && !Marked(s.volume.dst)
  {
    var src := Two(p, q, a, b);
    var start := State(Idle, Volume(None, None));
    assert Run([start], [], src) && [start][0] == start;
    ReachClearing(p, q, a, b, None);
    var v := Volume(None, Some(src));
    Reach(State(ClearDst, v), Proceed, src, State(Replace, v));
    Reach(State(Replace, v), Proceed, src, State(Touch, Volume(Some(src), None)));
    s := State(Idle, Volume(Some(src), None));
    Reach(State(Touch, Volume(Some(src), None)), Crash, src, s);
  }

  /** Stopped while it clears such a destination, the next attempt leaves a proper part of it. */
  lemma HalfDeleted(p: Path, q: Path, a: seq<int>, b: seq<int>) returns (s: State)
    requires p != q && p != Marker && q != Marker
    ensures Reachable(s, Two(p, q, a, b)) && s.pc.Idle?
    ensures s.volume.dst == Some(map[q := File(b)]) && !Marked(s.volume.dst) && !Whole(s.volume.dst, Two(p, q, a, b))
  {
    var src := Two(p, q, a, b);
    var whole := CompleteButUnmarked(p, q, a, b);
    ReachClearing(p, q, a, b, Some(src));
    var v := Volume(Some(map[q := File(b)]), Some(src));
    assert src - {p} == map[q := File(b)];
    Reach(State(ClearDst, Volume(Some(src), Some(src))), Remove(p), src, State(ClearDst, v));
    s := State(Idle, v);
    Reach(State(ClearDst, v), Crash, src, s);
    assert p in src - {Marker} && p !in v.dst.value - {Marker};
  }

  // ---- which artifacts ever become ready ----

  predicate MarkerIsDir(src: Tree) {
    Marker in src && src[Marker].Dir?
  }

  /** An artifact with a directory in the marker's place never becomes ready, however often it is tried. */
  lemma DirectoryNeverReady(states: seq<State>, actions: seq<Action>, src: Tree, k: nat)
    requires Run(states, actions, src) && k < |states| && MarkerIsDir(src)
    ensures !Marked(states[k].volume.dst)
  {
    MarkerMeansWhole(states, actions, src, k);
  }

  predicate PastScan(pc: Pc) {
    pc.ClearPartial? || pc.Make? || pc.Copy? || TouchesDst(pc)
  }

  // With a symbolic link in the artifact the script never gets past its scan.
  lemma {:induction false} LinksBlock(states: seq<State>, actions: seq<Action>, src: Tree, k: nat)
    requires Run(states, actions, src) && k < |states| && !NoLinks(src)
    ensures states[k].volume == states[0].volume && !PastScan(states[k].pc)
  {
    if k > 0 {
      LinksBlock(states, actions, src, k - 1);
      assert Step(states[k - 1], actions[k - 1], src) == Some(states[k]);
    }
  }

  // From the beginning of the copy to its end.
  lemma {:induction false} ReachCopied(src: Tree, copied: Tree)
    requires copied.Keys <= src.Keys && forall p :: p in copied ==> copied[p] == src[p]
    requires Reachable(State(Copy, Volume(None, Some(copied))), src)
    ensures Reachable(State(Copy, Volume(None, Some(src))), src)
    decreases src.Keys - copied.Keys
  {
    var rest := src.Keys - copied.Keys;
    if rest == {} {
      forall p | p in src ensures p in copied { assert p !in rest; }
      assert copied == src;
    } else {
      var p :| p in rest;
      var more := copied[p := src[p]];
      var length := if src[p].File? then |src[p].content| else 0;
      Reach(State(Copy, Volume(None, Some(copied))), Write(p, length), src, State(Copy, Volume(None, Some(more))));
      ReachCopied(src, more);
    }
  }

  lemma ReachTouch(src: Tree)
    requires NoLinks(src)
    ensures Reachable(State(Touch, Volume(Some(src), None)), src)
  {
    var v := Volume(None, None);
    assert Run([State(Idle, v)], [], src) && [State(Idle, v)][0] == State(Idle, v);
    Reach(State(Idle, v), Begin, src, State(Check, v));
    Reach(State(Check, v), Proceed, src, State(Scan, v));
    Reach(State(Scan, v), Proceed, src, State(ClearPartial, v));
    Reach(State(ClearPartial, v), Proceed, src, State(Make, v));
    Reach(State(Make, v), Proceed, src, State(Copy, Volume(None, Some(map[]))));
    ReachCopied(src, map[]);
    var w := Volume(None, Some(src));
    Reach(State(Copy, w), Proceed, src, State(ClearDst, w));
    Reach(State(ClearDst, w), Proceed, src, State(Replace, w));
    Reach(State(Replace, w), Proceed, src, State(Touch, Volume(Some(src), None)));
  }

  /** An artifact that is nothing but a directory in the marker's place is promoted by one whole attempt,
      and is not ready after it. */
  lemma PromotedButNeverReady() returns (s: State)
    ensures Reachable(s, map[Marker := Dir]) && s.pc.Idle?
    ensures s.volume == Volume(Some(map[Marker := Dir]), None) && !Marked(s.volume.dst)
  {
    var src: Tree := map[Marker := Dir];
    ReachTouch(src);
    s := State(Idle, Volume(Some(src), None));
    Reach(State(Touch, Volume(Some(src), None)), Proceed, src, s);
  }

  /** From an empty volume some sequence of attempts ends ready exactly if the artifact holds neither a
      symbolic link nor a directory in the marker's place. */
  lemma ReadyExactly(src: Tree)
    ensures (exists s :: Reachable(s, src) && Marked(s.volume.dst)) <==> NoLinks(src) && !MarkerIsDir(src)
  {
    if NoLinks(src) && !MarkerIsDir(src) {
      ReachTouch(src);
      var v := Volume(Some(src), None);
      var s := State(Idle, v.(dst := Touched(v.dst)));
      Reach(State(Touch, v), Proceed, src, s);
      assert Marked(s.volume.dst);
    } else {
      forall s | Reachable(s, src) ensures !Marked(s.volume.dst) {
        var states: seq<State>, actions: seq<Action> :|
          Run(states, actions, src) && states[0] == State(Idle, Volume(None, None)) && states[|states| - 1] == s;
        if MarkerIsDir(src) {
          DirectoryNeverReady(states, actions, src, |states| - 1);
        } else {
          LinksBlock(states, actions, src, |states| - 1);
        }
      }
    }
  }

  // ---- one attempt that is not interrupted ----

  // Nothing in the tree resists removal. A directory around an entry that does resists as well.
  predicate Removable(t: Option<Tree>, stuck: set<Path>) {
    t.Some? ==> forall p :: p in t.value ==> p !in stuck
  }

  class CacheVolume {
    var dst: Option<Tree>
    var partial: Option<Tree>

    constructor (volume: Volume)
      ensures dst == volume.dst && partial == volume.partial
    {
      dst, partial := volume.dst, volume.partial;
    }

    /** shutil.rmtree, ignoring errors: entry after entry, in any order, except those that cannot be
        removed, and then the directory itself if nothing is left in it. */
    method RemoveTree(t: Option<Tree>, stuck: set<Path>) returns (left: Option<Tree>)
      ensures left == if Removable(t, stuck) then None else Some(map p | p in t.value && p in stuck :: t.value[p])
    {
      if t.None? {
        return None;
      }
      var rest, todo := t.value, t.value.Keys;
      while todo != {}
        invariant todo <= t.value.Keys && rest.Keys == todo + (t.value.Keys * stuck)
        invariant forall p :: p in rest ==> rest[p] == t.value[p]
        decreases todo
      {
        var p :| p in todo;
        if p !in stuck { rest := rest - {p}; }
        todo := todo - {p};
      }
      if rest == map[] {
        assert forall p :: p in t.value ==> p !in rest.Keys;
        return None;
      }
      ghost var q :| q in rest;
      assert q in t.value && q in stuck;
      assert rest == map p | p in t.value && p in stuck :: t.value[p];
      return Some(rest);
    }

    /** shutil.copytree into a new directory: entry after entry, in any order. */
    method CopyTree(src: Tree) returns (copy: Tree)
      ensures copy == src
    {
      copy := map[];
      var todo := src.Keys;
      while todo != {}
        invariant todo <= src.Keys && copy.Keys == src.Keys - todo
        invariant forall p :: p in copy ==> copy[p] == src[p]
        decreases todo
      {
        var p :| p in todo;
        copy := copy[p := src[p]];
        todo := todo - {p};
      }
    }

    /** One attempt from any trustworthy volume that is not interrupted. It ends ready exactly if the
        volume was ready before, or the artifact holds neither a symbolic link nor a directory in the
        marker's place and what is in the way can be removed. */
    method Promote(src: Tree, stuck: set<Path>) returns (ok: bool)
      requires Trustworthy(dst, src)
      modifies this
      ensures Trustworthy(dst, src)
      ensures ok <==> old(Marked(dst)) || (NoLinks(src) && old(Removable(partial, stuck)) && old(Removable(dst, stuck)))
      ensures Marked(dst) <==> old(Marked(dst)) || (ok && !MarkerIsDir(src))
      ensures ok ==> Whole(dst, src)
      ensures ok && !old(Marked(dst)) ==> partial.None?
      ensures old(Marked(dst)) || !NoLinks(src) ==> dst == old(dst) && partial == old(partial)
    {
      if Marked(dst) {
        return true;
      }
      if exists p :: p in src && src[p].Link? {
        return false;
      }
      partial := RemoveTree(partial, stuck);
      if partial.Some? {
        return false;              // copytree refuses an existing directory
      }
      var copy := CopyTree(src);
      partial := Some(copy);
      dst := RemoveTree(dst, stuck);
      if dst.Some? {
        return false;              // the rename refuses a directory that is not empty
      }
      dst, partial := partial, None;
      if Marker !in dst.value {
        dst := Some(dst.value[Marker := File([])]);
        assert src[Marker := File([])] - {Marker} == src - {Marker};
      }
      return true;
    }
  }
}
