/** Layered run configuration: the deep merge, and the policy that keeps adapter-owned structure
    (src/mootloop/config.py:106-162, 189-250, src/mootloop/models/config.py:27-40). */
module ConfigPolicy {
  import opened Wrappers

  /** A configuration value; `Null` and every scalar or list is a leaf. */
  datatype Value = Null | Json(text: string)

  datatype Tree = Leaf(value: Value) | Node(children: map<string, Tree>)

  type Content = map<string, Tree>

  type Path = seq<string>

  const STRUCTURAL: set<Path> := {
    ["stages"], ["panels", "judges"], ["panels", "jury"], ["panels", "jurors"], ["panels", "rubric_judges"],
    ["gates"], ["deliverables"]
  }

  const IMMUTABLE: set<Path> := {["schema_version"], ["task"], ["rubric_id"]}

  // --- merge ------------------------------------------------------------------------------------------------

  function MergeTree(a: Tree, b: Tree): Tree
    decreases b
  {
    if a.Node? && b.Node? then
      Node(map k | k in a.children.Keys + b.children.Keys ::
        if k !in b.children then a.children[k]
        else if k in a.children then MergeTree(a.children[k], b.children[k])
        else b.children[k])
    else b
  }

  function DeepMerge(base: Content, incoming: Content): Content {
    MergeTree(Node(base), Node(incoming)).children
  }

  /** The value at a path; `None` when the path leaves the tree. */
  function At(t: Tree, p: Path): Option<Tree>
    decreases |p|
  {
    if p == [] then Some(t)
    else if t.Leaf? || p[0] !in t.children then None
    else At(t.children[p[0]], p[1..])
  }

  function ValueAt(c: Content, p: Path): Option<Tree> {
    At(Node(c), p)
  }

  /** The lookup loop. */
  method LookUp(c: Content, p: Path) returns (v: Option<Tree>)
    ensures v == ValueAt(c, p)
  {
    var current := Node(c);
    for i := 0 to |p|
      invariant At(current, p[i..]) == ValueAt(c, p)
    {
      if current.Leaf? || p[i] !in current.children {
        return None;
      }
      assert p[i..][1..] == p[i + 1..];
      current := current.children[p[i]];
    }
    return Some(current);
  }

  predicate LeafAt(t: Tree, p: Path) {
    At(t, p).Some? && At(t, p).value.Leaf?
  }

  /** Along `p`, wherever both trees have a value, they have the same kind of value. */
  predicate Agree(a: Tree, b: Tree, p: Path)
    decreases |p|
  {
    if a.Leaf? || b.Leaf? then a.Leaf? && b.Leaf?
    else p == [] || p[0] !in a.children || p[0] !in b.children || Agree(a.children[p[0]], b.children[p[0]], p[1..])
  }

  lemma MergeChild(a: Tree, b: Tree, k: string)
    requires a.Node? && b.Node?
    ensures var m := MergeTree(a, b);
      && m.Node?
      && (k in m.children <==> k in a.children || k in b.children)
      && (k in b.children && k in a.children ==> m.children[k] == MergeTree(a.children[k], b.children[k]))
      && (k in b.children && k !in a.children ==> m.children[k] == b.children[k])
      && (k !in b.children && k in a.children ==> m.children[k] == a.children[k])
  {
  }

  /** A leaf below survives a merge exactly when the trees agree in shape along its path and the incoming
      tree does not set it to something else. */
  lemma {:induction false} MergeKeepsLeaf(a: Tree, b: Tree, p: Path)
    requires LeafAt(a, p)
    ensures At(MergeTree(a, b), p) == At(a, p) <==> Agree(a, b, p) && (LeafAt(b, p) ==> At(b, p) == At(a, p))
    decreases |p|
  {
    if p != [] && b.Node? {
      MergeChild(a, b, p[0]);
      if p[0] in b.children {
        MergeKeepsLeaf(a.children[p[0]], b.children[p[0]], p[1..]);
      }
    }
  }

  // --- policy -----------------------------------------------------------------------------------------------

  /** The paths of a tree's leaves. */
  function LeafPaths(t: Tree): set<Path> {
    match t
    case Leaf(_) => {[]}
    case Node(children) => set k, p | k in children && p in LeafPaths(children[k]) :: [k] + p
  }

  lemma {:induction false} LeafPathsAre(t: Tree, p: Path)
    ensures p in LeafPaths(t) <==> LeafAt(t, p)
    decreases |p|
  {
    if t.Node? {
      if p != [] && p[0] in t.children {
        LeafPathsAre(t.children[p[0]], p[1..]);
        assert p == [p[0]] + p[1..];
      }
      if p in LeafPaths(t) {
        var k, q :| k in t.children && q in LeafPaths(t.children[k]) && p == [k] + q;
        assert p[1..] == q;
      }
    }
  }

  /** Some leaf is an immutable identity path, or a structural path that was not allowlisted. */
  datatype PolicyError = RefusedLeaf

  /** Whether a leaf of an incoming layer is refused. */
  predicate Refuses(current: Content, incoming: Content, allowed: set<Path>, p: Path) {
    || p in IMMUTABLE
    || (p in STRUCTURAL && p !in allowed && ValueAt(current, p) != ValueAt(incoming, p))
  }

  predicate Passes(current: Content, incoming: Content, allowed: set<Path>) {
    forall p :: p in LeafPaths(Node(incoming)) ==> !Refuses(current, incoming, allowed, p)
  }

  /** A layer that passes the policy and is merged leaves a non-allowlisted structural leaf as it was below,
      exactly when the layer agrees in shape along that leaf's path. */
  lemma PolicyKeepsStructure(current: Content, incoming: Content, allowed: set<Path>, p: Path)
    requires Passes(current, incoming, allowed) && p in STRUCTURAL && p !in allowed && LeafAt(Node(current), p)
    ensures ValueAt(DeepMerge(current, incoming), p) == ValueAt(current, p)
      <==> Agree(Node(current), Node(incoming), p)
  {
    MergeKeepsLeaf(Node(current), Node(incoming), p);
    LeafPathsAre(Node(incoming), p);
    MergeChild(Node(current), Node(incoming), "");
  }

  /** The shape condition is needed: an explicit null for a structural container passes the policy, since
      only exact leaves are listed, and removes every leaf below it. */
  lemma NullContainerPasses(judges: Value)
    ensures var current: Content := map["panels" := Node(map["judges" := Leaf(judges)])];
      var incoming: Content := map["panels" := Leaf(Null)];
      && Passes(current, incoming, {})
      && ValueAt(current, ["panels", "judges"]) == Some(Leaf(judges))
      && ValueAt(DeepMerge(current, incoming), ["panels", "judges"]) == None
  {
    var current: Content := map["panels" := Node(map["judges" := Leaf(judges)])];
    var incoming: Content := map["panels" := Leaf(Null)];
    forall p | p in LeafPaths(Node(incoming))
      ensures !Refuses(current, incoming, {}, p)
    {
      LeafPathsAre(Node(incoming), p);
      assert p[0] == "panels";
      assert p == ["panels"];
    }
    var path := ["panels", "judges"];
    assert path[1..] == ["judges"] && path[1..][1..] == [];
    MergeChild(Node(current), Node(incoming), "panels");
    assert ValueAt(current, path) == Some(Leaf(judges));
  }

  // --- layers -----------------------------------------------------------------------------------------------

  /** A layer says at most one thing along `p`: a leaf at `p` itself, or nothing. */
  predicate Clean(t: Tree, p: Path)
    decreases |p|
  {
    if p == [] then t.Leaf? else t.Node? && (p[0] in t.children ==> Clean(t.children[p[0]], p[1..]))
  }

  lemma {:induction false} MergeClean(a: Tree, b: Tree, p: Path)
    requires Clean(a, p) && Clean(b, p)
    ensures Clean(MergeTree(a, b), p)
    ensures At(MergeTree(a, b), p) == if LeafAt(b, p) then At(b, p) else At(a, p)
    ensures LeafAt(a, p) ==> Agree(a, b, p)
    ensures At(a, p).Some? ==> LeafAt(a, p)
    decreases |p|
  {
    if p == [] {
    } else {
      MergeChild(a, b, p[0]);
      if p[0] in a.children && p[0] in b.children {
        MergeClean(a.children[p[0]], b.children[p[0]], p[1..]);
      } else if p[0] in a.children {
        CleanAt(a.children[p[0]], p[1..]);
      } else if p[0] in b.children {
        CleanAt(b.children[p[0]], p[1..]);
      }
    }
  }

  lemma {:induction false} CleanAt(t: Tree, p: Path)
    requires Clean(t, p)
    ensures At(t, p).Some? ==> LeafAt(t, p)
    decreases |p|
  {
    if p != [] && p[0] in t.children {
      CleanAt(t.children[p[0]], p[1..]);
    }
  }

  /** The value of the last layer that sets a path. */
  function Highest(layers: seq<Content>, p: Path): Option<Tree> {
    if layers == [] then None
    else if ValueAt(layers[|layers| - 1], p).Some? then ValueAt(layers[|layers| - 1], p)
    else Highest(layers[..|layers| - 1], p)
  }

  function MergeLayers(layers: seq<Content>): Content {
    if layers == [] then map[] else DeepMerge(MergeLayers(layers[..|layers| - 1]), layers[|layers| - 1])
  }

  /** Over all layers, each leaf has the value of the highest layer that sets it. */
  lemma {:induction false} HighestLayerWins(layers: seq<Content>, p: Path)
    requires p != [] && forall i :: 0 <= i < |layers| ==> Clean(Node(layers[i]), p)
    ensures ValueAt(MergeLayers(layers), p) == Highest(layers, p) && Clean(Node(MergeLayers(layers)), p)
  {
    if layers != [] {
      var front, last := layers[..|layers| - 1], layers[|layers| - 1];
      HighestLayerWins(front, p);
      MergeClean(Node(MergeLayers(front)), Node(last), p);
      CleanAt(Node(last), p);
      MergeChild(Node(MergeLayers(front)), Node(last), "");
    }
  }

  // --- resolution -------------------------------------------------------------------------------------------

  /** The enforced layers over a base, lowest first; a refused one stops the resolution. */
  function ResolveOver(base: Content, layers: seq<Content>, allowed: set<Path>): Result<Content, PolicyError> {
    if layers == [] then Success(base)
    else
      match ResolveOver(base, layers[..|layers| - 1], allowed)
      case Failure(e) => Failure(e)
      case Success(current) =>
        if Passes(current, layers[|layers| - 1], allowed) then Success(DeepMerge(current, layers[|layers| - 1]))
        else Failure(RefusedLeaf)
  }

  /** What lies below the enforced layers: the defaults, the values of an old matter file, the adapter. */
  function Below(defaults: Content, legacy: Option<Content>, adapter: Content): seq<Content> {
    [defaults] + (if legacy.Some? then [legacy.value] else []) + [adapter]
  }

  lemma BelowMerges(defaults: Content, legacy: Option<Content>, adapter: Content)
    ensures MergeLayers(Below(defaults, legacy, adapter))
         == DeepMerge(if legacy.Some? then DeepMerge(defaults, legacy.value) else defaults, adapter)
  {
    MergeNothing(defaults);
    MergeAppend([], defaults);
    assert [] + [defaults] == [defaults];
    if legacy.Some? {
      MergeAppend([defaults], legacy.value);
      MergeAppend([defaults] + [legacy.value], adapter);
    } else {
      MergeAppend([defaults], adapter);
      assert [defaults] + [] == [defaults];
    }
  }

  lemma MergeAppend(layers: seq<Content>, layer: Content)
    ensures MergeLayers(layers + [layer]) == DeepMerge(MergeLayers(layers), layer)
  {
    assert (layers + [layer])[..|layers|] == layers;
  }

  lemma MergeNothing(c: Content)
    ensures DeepMerge(map[], c) == c
  {
  }

  /** The merges below the policy, then the loop over the firm, matter and invocation layers. */
  method Resolve(defaults: Content, legacy: Option<Content>, adapter: Content, overlays: seq<Option<Content>>,
                 allowed: set<Path>)
      returns (r: Result<Content, PolicyError>)
    ensures r == ResolveOver(MergeLayers(Below(defaults, legacy, adapter)), Present(overlays), allowed)
  {
    BelowMerges(defaults, legacy, adapter);
    var merged := defaults;
    if legacy.Some? {
      merged := DeepMerge(merged, legacy.value);
    }
    merged := DeepMerge(merged, adapter);
    ghost var base := merged;
    for i := 0 to |overlays|
      invariant ResolveOver(base, Present(overlays[..i]), allowed) == Success(merged)
    {
      assert overlays[..i + 1][..i] == overlays[..i];
      if overlays[i].Some? {
        var layer := overlays[i].value;
        ghost var before := Present(overlays[..i]);
        assert Present(overlays[..i + 1]) == before + [layer];
        assert (before + [layer])[..|before|] == before;
        if !Passes(merged, layer, allowed) {
          RefusalSpreads(base, overlays, allowed, i + 1);
          return Failure(RefusedLeaf);
        }
        merged := DeepMerge(merged, layer);
      } else {
        assert Present(overlays[..i]) + [] == Present(overlays[..i]);
      }
    }
    assert overlays[..|overlays|] == overlays;
    return Success(merged);
  }

  function Present(overlays: seq<Option<Content>>): seq<Content> {
    if overlays == [] then []
    else
      Present(overlays[..|overlays| - 1])
      + if overlays[|overlays| - 1].Some? then [overlays[|overlays| - 1].value] else []
  }

  lemma {:induction false} RefusalSpreads(base: Content, overlays: seq<Option<Content>>, allowed: set<Path>, i: nat)
    requires i <= |overlays| && ResolveOver(base, Present(overlays[..i]), allowed) == Failure(RefusedLeaf)
    ensures ResolveOver(base, Present(overlays), allowed) == Failure(RefusedLeaf)
    decreases |overlays| - i
  {
    if i == |overlays| {
      assert overlays[..i] == overlays;
    } else {
      assert overlays[..i + 1][..i] == overlays[..i];
      var before := Present(overlays[..i]);
      if overlays[i].Some? {
        assert (before + [overlays[i].value])[..|before|] == before;
      } else {
        assert before + [] == before;
      }
      RefusalSpreads(base, overlays, allowed, i + 1);
    }
  }

  /** What passes the policy is merged as it is. */
  lemma {:induction false} ResolvedIsMerged(below: seq<Content>, layers: seq<Content>, allowed: set<Path>)
    requires ResolveOver(MergeLayers(below), layers, allowed).Success?
    ensures ResolveOver(MergeLayers(below), layers, allowed).value == MergeLayers(below + layers)
  {
    if layers == [] {
      assert below + layers == below;
    } else {
      var front := layers[..|layers| - 1];
      ResolvedIsMerged(below, front, allowed);
      assert (below + layers)[..|below + layers| - 1] == below + front;
    }
  }

  /** The resolved configuration, policy included: each leaf has the value of the highest layer that sets it,
      those below the policy among them. */
  lemma ResolutionTakesHighest(below: seq<Content>, layers: seq<Content>, allowed: set<Path>, p: Path)
    requires ResolveOver(MergeLayers(below), layers, allowed).Success? && p != []
    requires forall i :: 0 <= i < |below| ==> Clean(Node(below[i]), p)
    requires forall i :: 0 <= i < |layers| ==> Clean(Node(layers[i]), p)
    ensures ValueAt(ResolveOver(MergeLayers(below), layers, allowed).value, p) == Highest(below + layers, p)
  {
    ResolvedIsMerged(below, layers, allowed);
    HighestLayerWins(below + layers, p);
  }

  // --- structure over all layers -------------------------------------------------------------------------------

  predicate AllClean(layers: seq<Content>, p: Path) {
    forall i :: 0 <= i < |layers| ==> Clean(Node(layers[i]), p)
  }

  /** Over a leaf, agreeing in shape is a matter of the incoming tree alone. */
  lemma {:induction false} AgreeIsClean(a: Tree, b: Tree, p: Path)
    requires LeafAt(a, p)
    ensures Agree(a, b, p) <==> Clean(b, p)
    decreases |p|
  {
    if p != [] && b.Node? && p[0] in b.children {
      AgreeIsClean(a.children[p[0]], b.children[p[0]], p[1..]);
    }
  }

  /** A leaf of a merge is a leaf of one of the merged. */
  lemma {:induction false} MergedLeafFrom(a: Tree, b: Tree, p: Path)
    requires LeafAt(MergeTree(a, b), p)
    ensures LeafAt(b, p) || LeafAt(a, p)
    decreases |p|
  {
    if p != [] && a.Node? && b.Node? {
      MergeChild(a, b, p[0]);
      if p[0] in a.children && p[0] in b.children {
        MergedLeafFrom(a.children[p[0]], b.children[p[0]], p[1..]);
      }
    }
  }

  /** One enforced layer: a structural leaf that is lost stays lost, since no layer may set it again. */
  lemma LostStaysLost(current: Content, incoming: Content, allowed: set<Path>, p: Path)
    requires Passes(current, incoming, allowed) && p in STRUCTURAL && p !in allowed && !LeafAt(Node(current), p)
    ensures !LeafAt(Node(DeepMerge(current, incoming)), p)
  {
    LeafPathsAre(Node(incoming), p);
    MergeChild(Node(current), Node(incoming), "");
    if LeafAt(MergeTree(Node(current), Node(incoming)), p) {
      MergedLeafFrom(Node(current), Node(incoming), p);
      assert false;
    }
  }

  /** However many enforced layers pass, a structural leaf the adapter did not allowlist keeps the value it had
      below them exactly when every layer is clean along its path; otherwise it is a leaf no more. */
  lemma {:induction false} ResolutionKeepsStructure(base: Content, layers: seq<Content>, allowed: set<Path>, p: Path)
    requires ResolveOver(base, layers, allowed).Success?
    requires p in STRUCTURAL && p !in allowed && LeafAt(Node(base), p)
    ensures var r := ResolveOver(base, layers, allowed).value;
      && (ValueAt(r, p) == ValueAt(base, p) <==> AllClean(layers, p))
      && (LeafAt(Node(r), p) <==> AllClean(layers, p))
  {
    if layers != [] {
      var front, last := layers[..|layers| - 1], layers[|layers| - 1];
      ResolutionKeepsStructure(base, front, allowed, p);
      var current := ResolveOver(base, front, allowed).value;
      assert AllClean(layers, p) <==> AllClean(front, p) && Clean(Node(last), p) by {
        assert layers == front + [last];
      }
      if AllClean(front, p) {
        PolicyKeepsStructure(current, last, allowed, p);
        AgreeIsClean(Node(current), Node(last), p);
        OneLayerLoses(current, last, allowed, p);
      } else {
        LostStaysLost(current, last, allowed, p);
      }
    }
  }

  /** A layer that is not clean along the path of a structural leaf takes the leaf away. */
  lemma OneLayerLoses(current: Content, incoming: Content, allowed: set<Path>, p: Path)
    requires Passes(current, incoming, allowed) && p in STRUCTURAL && p !in allowed && LeafAt(Node(current), p)
    ensures LeafAt(Node(DeepMerge(current, incoming)), p) <==> Clean(Node(incoming), p)
  {
    var a, b := Node(current), Node(incoming);
    PolicyKeepsStructure(current, incoming, allowed, p);
    AgreeIsClean(a, b, p);
    MergeChild(a, b, "");
    if !Clean(b, p) {
      UncleanIsNoLeaf(a, b, p);
    }
  }

  lemma {:induction false} UncleanIsNoLeaf(a: Tree, b: Tree, p: Path)
    requires LeafAt(a, p) && !Clean(b, p)
    ensures !LeafAt(MergeTree(a, b), p)
    decreases |p|
  {
    if p != [] && b.Node? {
      MergeChild(a, b, p[0]);
      UncleanIsNoLeaf(a.children[p[0]], b.children[p[0]], p[1..]);
    }
  }

  // --- what validation still catches ---------------------------------------------------------------------------

  const JURORS: Path := ["panels", "jurors"]

  /** Every structural leaf but one is required of a resolved configuration. */
  predicate Validates(resolved: Content) {
    forall p :: p in STRUCTURAL && p != JURORS ==> LeafAt(Node(resolved), p)
  }

  /** The number of jurors a run is started with: zero when nothing says. */
  function Jurors(resolved: Content): Value {
    if LeafAt(Node(resolved), JURORS) then ValueAt(resolved, JURORS).value.value else Json("0")
  }

  /** A configuration that validates has kept every structural leaf that was not allowlisted, the number of
      jurors excepted. */
  lemma ValidatedKeepsStructure(base: Content, layers: seq<Content>, allowed: set<Path>, p: Path)
    requires ResolveOver(base, layers, allowed).Success? && Validates(ResolveOver(base, layers, allowed).value)
    requires p in STRUCTURAL && p !in allowed && LeafAt(Node(base), p) && p != JURORS
    ensures ValueAt(ResolveOver(base, layers, allowed).value, p) == ValueAt(base, p)
  {
    ResolutionKeepsStructure(base, layers, allowed, p);
  }

  /** The number of jurors is kept exactly when every layer is clean along its path, or it was zero. */
  lemma JurorsKeptExactly(base: Content, layers: seq<Content>, allowed: set<Path>)
    requires ResolveOver(base, layers, allowed).Success? && JURORS !in allowed && LeafAt(Node(base), JURORS)
    ensures Jurors(ResolveOver(base, layers, allowed).value) == Jurors(base)
      <==> AllClean(layers, JURORS) || Jurors(base) == Json("0")
  {
    ResolutionKeepsStructure(base, layers, allowed, JURORS);
  }

  function ValidBase(jurors: Value): Content {
    map["stages" := Leaf(Json("[]")), "gates" := Leaf(Json("[]")), "deliverables" := Leaf(Json("[]")),
        "panels" := Node(map["judges" := Leaf(Json("3")), "jury" := Leaf(Json("true")), "jurors" := Leaf(jurors),
                             "rubric_judges" := Leaf(Json("3"))])]
  }

  const NullPanels: Content := map["panels" := Leaf(Null)]

  const OtherPanels: Content := map["panels" := Node(map[
    "judges" := Leaf(Json("3")), "jury" := Leaf(Json("false")), "rubric_judges" := Leaf(Json("3"))])]

  const OtherLeaves: set<Path> := {["panels", "judges"], ["panels", "jury"], ["panels", "rubric_judges"]}

  lemma NullPanelsPass(current: Content)
    ensures Passes(current, NullPanels, OtherLeaves)
    ensures DeepMerge(current, NullPanels) == current["panels" := Leaf(Null)]
  {
    forall p | p in LeafPaths(Node(NullPanels))
      ensures !Refuses(current, NullPanels, OtherLeaves, p)
    {
      LeafPathsAre(Node(NullPanels), p);
      assert p == ["panels"];
    }
  }

  lemma OtherPanelsPass(current: Content)
    requires "panels" in current && current["panels"] == Leaf(Null)
    ensures Passes(current, OtherPanels, OtherLeaves)
    ensures DeepMerge(current, OtherPanels) == current["panels" := OtherPanels["panels"]]
  {
    forall p | p in LeafPaths(Node(OtherPanels))
      ensures !Refuses(current, OtherPanels, OtherLeaves, p)
    {
      LeafPathsAre(Node(OtherPanels), p);
      LeafPathsAre(OtherPanels["panels"], p[1..]);
      assert |p| == 2 && p == [p[0], p[1]];
      assert p in OtherLeaves;
    }
  }

  lemma PanelsAt(c: Content, k: string)
    requires "panels" in c && c["panels"].Node?
    ensures ValueAt(c, ["panels", k]) == if k in c["panels"].children then Some(c["panels"].children[k]) else None
  {
    var p := ["panels", k];
    assert p[1..] == [k] && p[1..][1..] == [];
    assert At(Node(c), p) == At(c["panels"], p[1..]);
    if k in c["panels"].children {
      assert At(c["panels"], p[1..]) == At(c["panels"].children[k], p[1..][1..]);
    }
  }

  lemma PanelsValidate(c: Content)
    requires "panels" in c && c["panels"] == OtherPanels["panels"]
    requires forall k :: k in {"stages", "gates", "deliverables"} ==> k in c && c[k].Leaf?
    ensures Validates(c) && Jurors(c) == Json("0")
  {
    PanelsAt(c, "judges");
    PanelsAt(c, "jury");
    PanelsAt(c, "rubric_judges");
    PanelsAt(c, "jurors");
    forall k | k in {"stages", "gates", "deliverables"}
      ensures LeafAt(Node(c), [k])
    {
      assert [k][1..] == [];
    }
  }

  lemma ResolveTwo(base: Content, first: Content, second: Content, allowed: set<Path>)
    requires Passes(base, first, allowed) && Passes(DeepMerge(base, first), second, allowed)
    ensures ResolveOver(base, [first, second], allowed) == Success(DeepMerge(DeepMerge(base, first), second))
  {
    hide DeepMerge, Passes;
    var layers := [first, second];
    assert layers[..1] == [first] && layers[..1][..0] == [];
    assert ResolveOver(base, layers[..1][..0], allowed) == Success(base);
    assert ResolveOver(base, layers[..1], allowed) == Success(DeepMerge(base, first));
  }

  lemma ResetResolves(base: Content)
    requires forall k :: k in {"stages", "gates", "deliverables"} ==> k in base && base[k].Leaf?
    ensures var r := ResolveOver(base, [NullPanels, OtherPanels], OtherLeaves);
      r.Success? && Validates(r.value) && Jurors(r.value) == Json("0")
  {
    NullPanelsPass(base);
    var nulled := DeepMerge(base, NullPanels);
    OtherPanelsPass(nulled);
    PanelsValidate(DeepMerge(nulled, OtherPanels));
    hide DeepMerge, Passes, Validates, Jurors;
    ResolveTwo(base, NullPanels, OtherPanels, OtherLeaves);
  }

  /** It does happen: one layer nulls the panels, and a higher one supplies again the three leaves the adapter
      allowlisted. Both pass, the result validates, and the number of jurors, not allowlisted, is gone. */
  lemma JurorsSilentlyReset(jurors: Value)
    ensures var r := ResolveOver(ValidBase(jurors), [NullPanels, OtherPanels], OtherLeaves);
      && JURORS !in OtherLeaves && r.Success? && Validates(r.value)
      && Jurors(ValidBase(jurors)) == jurors && Jurors(r.value) == Json("0")
  {
    PanelsAt(ValidBase(jurors), "jurors");
    ResetResolves(ValidBase(jurors));
    hide ResolveOver, Validates;
  }
}
