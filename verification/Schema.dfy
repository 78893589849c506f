/** Paths through a graph some of whose nodes carry a key, where equal keys lead to the
    same places: cutting repeated keys out of a path, and what a walk that refuses to
    re-enter a key still finds. */
module KeyedPaths {
  import opened Prelude

  predicate IsPath<T>(path: seq<T>, leads: (T, T) -> bool) {
    path != [] && forall i :: 0 <= i < |path| - 1 ==> leads(path[i], path[i + 1])
  }

  predicate Repeats<T>(path: seq<T>, key: T -> Option<string>, i: int, j: int) {
    0 <= i < j < |path| && key(path[i]).Some? && key(path[i]) == key(path[j])
  }

  predicate Entered<T>(path: seq<T>, key: T -> Option<string>, refs: seq<string>, i: int) {
    0 <= i < |path| && key(path[i]).Some? && key(path[i]).value in refs
  }

  /** No key repeats along the path, nor has been entered before it. */
  ghost predicate Fresh<T>(path: seq<T>, key: T -> Option<string>, refs: seq<string>) {
    && (forall i, j :: !Repeats(path, key, i, j))
    && (forall i :: !Entered(path, key, refs, i))
  }

  lemma PathHead<T>(node: T, path: seq<T>, leads: (T, T) -> bool)
    requires IsPath(path, leads) && leads(node, path[0])
    ensures IsPath([node] + path, leads) && ([node] + path)[|path|] == path[|path| - 1]
  {
    var longer := [node] + path;
    forall i | 0 <= i < |longer| - 1 ensures leads(longer[i], longer[i + 1]) {
      if i > 0 {
        assert leads(path[i - 1], path[i]);
      }
    }
  }

  lemma PathTail<T>(path: seq<T>, leads: (T, T) -> bool)
    requires IsPath(path, leads) && |path| > 1
    ensures IsPath(path[1..], leads) && leads(path[0], path[1])
  {
    var rest := path[1..];
    forall i | 0 <= i < |rest| - 1 ensures leads(rest[i], rest[i + 1]) {
      assert leads(path[i + 1], path[i + 2]);
    }
  }

  // ---------- What holds wherever paths lead ----------

  /** Every node that any path from `node` leads to is good. */
  ghost predicate Everywhere<T(!new)>(node: T, leads: (T, T) -> bool, good: T -> bool) {
    forall path :: IsPath(path, leads) && path[0] == node ==> good(path[|path| - 1])
  }

  lemma EverywhereNext<T(!new)>(node: T, next: T, leads: (T, T) -> bool, good: T -> bool)
    requires Everywhere(node, leads, good) && leads(node, next)
    ensures Everywhere(next, leads, good)
  {
    forall path | IsPath(path, leads) && path[0] == next ensures good(path[|path| - 1]) {
      PathHead(node, path, leads);
      assert ([node] + path)[0] == node;
    }
  }

  lemma EverywhereHere<T(!new)>(node: T, leads: (T, T) -> bool, good: T -> bool)
    requires Everywhere(node, leads, good)
    ensures good(node)
  {
    assert IsPath([node], leads) && good([node][0]);
  }

  /** Good here and everywhere from each next node is good everywhere. */
  lemma EverywhereFrom<T(!new)>(node: T, leads: (T, T) -> bool, good: T -> bool)
    requires good(node) && forall next :: leads(node, next) ==> Everywhere(next, leads, good)
    ensures Everywhere(node, leads, good)
  {
    forall path | IsPath(path, leads) && path[0] == node ensures good(path[|path| - 1]) {
      if |path| > 1 {
        PathTail(path, leads);
        assert path[1..][|path| - 2] == path[|path| - 1];
      }
    }
  }

  /** What good nodes keep from one node to the next holds wherever all nodes are good. */
  lemma {:induction false} KeptAlong<T(!new)>(
    path: seq<T>, leads: (T, T) -> bool, good: T -> bool, kept: T -> bool)
    requires IsPath(path, leads) && Everywhere(path[0], leads, good) && kept(path[0])
    requires forall a, b :: good(a) && kept(a) && leads(a, b) ==> kept(b)
    ensures good(path[|path| - 1]) && kept(path[|path| - 1])
  {
    EverywhereHere(path[0], leads, good);
    if |path| > 1 {
      PathTail(path, leads);
      EverywhereNext(path[0], path[1], leads, good);
      KeptAlong(path[1..], leads, good, kept);
    }
  }

  lemma EverywhereAlongFewer<T(!new)>(
    node: T, fewer: (T, T) -> bool, leads: (T, T) -> bool, good: T -> bool, weaker: T -> bool)
    requires Everywhere(node, leads, good)
    requires forall a, b :: fewer(a, b) ==> leads(a, b)
    requires forall a :: good(a) ==> weaker(a)
    ensures Everywhere(node, fewer, weaker)
  {
    forall path | IsPath(path, fewer) && path[0] == node ensures weaker(path[|path| - 1]) {
      assert IsPath(path, leads);
    }
  }

  /** Edges that good nodes do not have lead nowhere new. */
  lemma {:induction false} OnlyOpenEdges<T(!new)>(
    path: seq<T>, leads: (T, T) -> bool, fewer: (T, T) -> bool, good: T -> bool)
    requires IsPath(path, leads) && Everywhere(path[0], fewer, good)
    requires forall a, b :: good(a) && leads(a, b) ==> fewer(a, b)
    ensures good(path[|path| - 1])
  {
    EverywhereHere(path[0], fewer, good);
    if |path| > 1 {
      PathTail(path, leads);
      EverywhereNext(path[0], path[1], fewer, good);
      OnlyOpenEdges(path[1..], leads, fewer, good);
    }
  }

  function EnteredFrom<T>(node: T, key: T -> Option<string>, refs: seq<string>): seq<string> {
    if key(node).Some? then refs + [key(node).value] else refs
  }

  lemma FreshTail<T>(path: seq<T>, key: T -> Option<string>, refs: seq<string>)
    requires Fresh(path, key, refs) && path != []
    ensures Fresh(path[1..], key, EnteredFrom(path[0], key, refs))
  {
    var rest, deeper := path[1..], EnteredFrom(path[0], key, refs);
    forall i, j ensures !Repeats(rest, key, i, j) {
      assert !Repeats(path, key, i + 1, j + 1);
    }
    forall i ensures !Entered(rest, key, deeper, i) {
      assert !Entered(path, key, refs, i + 1);
      assert !Repeats(path, key, 0, i + 1);
    }
  }

  /** The stretch between two nodes with the same key can be cut out of a path. */
  lemma CutPath<T>(path: seq<T>, leads: (T, T) -> bool, i: nat, j: nat)
    requires IsPath(path, leads) && i < j < |path| - 1
    requires leads(path[i], path[j + 1])
    ensures IsPath(path[..i + 1] + path[j + 1..], leads)
  {
    var cut := path[..i + 1] + path[j + 1..];
    forall k | 0 <= k < |cut| - 1 ensures leads(cut[k], cut[k + 1]) {
      if k < i {
        assert leads(path[k], path[k + 1]);
      } else if k > i {
        assert leads(path[k + j - i], path[k + j - i + 1]);
      }
    }
  }

  ghost predicate DeadEnd<T(!new)>(node: T, leads: (T, T) -> bool) {
    forall next :: !leads(node, next)
  }

  /** Any path can be shortened to one on which no key repeats, provided its last node, if
      keyed, leads nowhere. */
  lemma {:induction false} ShortenPath<T(!new)>(path: seq<T>, leads: (T, T) -> bool, key: T -> Option<string>)
    returns (short: seq<T>)
    requires IsPath(path, leads)
    requires forall a, b, c {:trigger leads(a, c), leads(b, c)} {:trigger key(a), key(b), leads(a, c)} ::
      key(a).Some? && key(a) == key(b) && leads(a, c) ==> leads(b, c)
    requires key(path[|path| - 1]).Some? ==> DeadEnd(path[|path| - 1], leads)
    ensures IsPath(short, leads) && short[0] == path[0] && short[|short| - 1] == path[|path| - 1]
    ensures Fresh(short, key, [])
    decreases |path|
  {
    if i, j :| Repeats(path, key, i, j) {
      assert leads(path[i], path[i + 1]) && leads(path[j], path[i + 1]);
      assert j < |path| - 1;
      assert leads(path[j], path[j + 1]) && leads(path[i], path[j + 1]);
      CutPath(path, leads, i, j);
      short := ShortenPath(path[..i + 1] + path[j + 1..], leads, key);
    } else {
      short := path;
    }
  }

  /** A walk that fails at bad nodes, and at any node leading to a failing one, fails from
      the start of every fresh path to a bad node. */
  lemma {:induction false} FreshBadPathFails<T(!new)>(
    path: seq<T>, leads: (T, T) -> bool, key: T -> Option<string>, bad: T -> bool,
    fails: (T, seq<string>) -> bool, refs: seq<string>)
    requires IsPath(path, leads) && bad(path[|path| - 1]) && Fresh(path, key, refs)
    requires forall a, r :: bad(a) && (key(a).Some? ==> key(a).value !in r) ==> fails(a, r)
    requires forall a, b, r {:trigger leads(a, b), fails(a, r)} ::
      leads(a, b) && fails(b, EnteredFrom(a, key, r)) && (key(a).Some? ==> key(a).value !in r) ==> fails(a, r)
    ensures fails(path[0], refs)
    decreases |path|
  {
    assert !Entered(path, key, refs, 0);
    if |path| > 1 {
      PathTail(path, leads);
      FreshTail(path, key, refs);
      FreshBadPathFails(path[1..], leads, key, bad, fails, EnteredFrom(path[0], key, refs));
    }
  }
}

/** The shape check on published tool schemas: a recursive walk that follows local
    references and cuts off at any reference already on its path. */
module Schema {
  import opened Prelude
  import opened Json
  import opened KeyedPaths

  datatype SchemaError =
    | NotLocal
    | Unresolved(reference: string)
    | UnknownFields
    | MissingDescription(property: string)

  const DEFS_PREFIX := "#/$defs/"

  function ReferenceOf(node: Json): Option<string> {
    var r := node.Get("$ref");
    if r.Some? then r.value.AsString() else None
  }

  function Defs(root: Json): seq<Member> {
    var defs := root.Get("$defs");
    if defs.Some? && defs.value.Object? then defs.value.members else []
  }

  predicate HasDefsPrefix(reference: string) {
    DEFS_PREFIX <= reference
  }

  function Resolve(reference: string, root: Json): (r: Result<Json, SchemaError>)
    ensures r.Ok? ==> reference in DefReferences(root)
  {
    if !HasDefsPrefix(reference) then Err(NotLocal)
    else
      var name := reference[|DEFS_PREFIX|..];
      var def := Find(Defs(root), name);
      if def.None? then Err(Unresolved(reference))
      else
        assert Member(name, def.value) in Defs(root);
        assert reference == DEFS_PREFIX + name;
        Ok(def.value)
  }

  function DefReferences(root: Json): set<string> {
    set m | m in Defs(root) :: DEFS_PREFIX + m.key
  }

  /** References that the walk has not yet entered on its current path. */
  function Unentered(root: Json, refs: seq<string>): set<string> {
    DefReferences(root) - set r | r in refs
  }

  // ---------- What one node asks for ----------

  /** One thing the walk does at a node, in order: give up, or visit a subschema. */
  datatype Duty = Reject(error: SchemaError) | Visit(child: Json)

  predicate DescribedBy(holder: Json) {
    var d := holder.Get("description");
    d.Some? && d.value.String? && !Blank(d.value.text)
  }

  predicate Described(child: Json) {
    || DescribedBy(child)
    || (var m := child.Get("metadata"); m.Some? && DescribedBy(m.value))
  }

  function PropertyDuties(context: Json, properties: seq<Member>): (duties: seq<Duty>)
    requires forall m :: m in properties ==> m.value < context
    ensures forall d :: d in duties && d.Visit? ==> d.child < context
  {
    if properties == [] then []
    else
      (if Described(properties[0].value) then [Visit(properties[0].value)]
       else [Reject(MissingDescription(properties[0].key))])
      + PropertyDuties(context, properties[1..])
  }

  function Visits(context: Json, children: seq<Json>): (duties: seq<Duty>)
    requires forall c :: c in children ==> c < context
    ensures forall d :: d in duties ==> d.Visit? && d.child < context && d.child in children
    ensures forall c :: c in children ==> Visit(c) in duties
  {
    if children == [] then []
    else
      assert children[0] in children && forall c :: c in children[1..] ==> c in children;
      assert forall c :: c in children ==> c == children[0] || c in children[1..];
      [Visit(children[0])] + Visits(context, children[1..])
  }

  /** A keyword whose value is one subschema or an array of them. */
  function KeywordDuties(node: Json, key: string): (duties: seq<Duty>)
    ensures forall d :: d in duties ==> d.Visit? && d.child < node
  {
    var value := node.Get(key);
    if value.None? then []
    else if value.value.Array? then Visits(node, value.value.items)
    else [Visit(value.value)]
  }

  function ItemsDuties(node: Json): (duties: seq<Duty>)
    ensures forall d :: d in duties ==> d.Visit? && d.child < node
  {
    var items := node.Get("items");
    if items.None? then [] else [Visit(items.value)]
  }

  function AllOfDuties(node: Json): (duties: seq<Duty>)
    ensures forall d :: d in duties ==> d.Visit? && d.child < node
  {
    var allOf := node.Get("allOf");
    if allOf.Some? && allOf.value.Array? then Visits(node, allOf.value.items) else []
  }

  const KEYWORDS := ["anyOf", "oneOf", "not", "if", "then", "else"]

  function KeywordsDuties(node: Json, keys: seq<string>): (duties: seq<Duty>)
    ensures forall d :: d in duties ==> d.Visit? && d.child < node
  {
    if keys == [] then [] else KeywordDuties(node, keys[0]) + KeywordsDuties(node, keys[1..])
  }

  function CompositionDuties(node: Json): (duties: seq<Duty>)
    ensures forall d :: d in duties ==> d.Visit? && d.child < node
  {
    ItemsDuties(node) + AllOfDuties(node) + KeywordsDuties(node, KEYWORDS)
  }

  predicate IsObjectSchema(node: Json) {
    node.Get("type") == Some(Json.String("object"))
  }

  predicate RejectsUnknownFields(node: Json) {
    node.Get("additionalProperties") == Some(Bool(false))
  }

  predicate HasProperties(node: Json) {
    var properties := node.Get("properties");
    properties.Some? && properties.value.Object?
  }

  function DeclaredDuties(node: Json): (duties: seq<Duty>)
    ensures forall d :: d in duties && d.Visit? ==> d.child < node
  {
    if HasProperties(node) then PropertyDuties(node, node.Get("properties").value.members) else []
  }

  /** Everything asked of a node that is not a reference. An object schema without
      properties asks nothing further, not even of its composition keywords. */
  function Duties(node: Json): (duties: seq<Duty>)
    ensures forall d :: d in duties && d.Visit? ==> d.child < node
  {
    if IsObjectSchema(node) then
      if !RejectsUnknownFields(node) then [Reject(UnknownFields)]
      else if HasProperties(node) then DeclaredDuties(node) + CompositionDuties(node)
      else []
    else CompositionDuties(node)
  }

  // ---------- The walk ----------

  /** The first error of the walk, if any. */
  function Check(node: Json, root: Json, refs: seq<string>): Option<SchemaError>
    decreases |Unentered(root, refs)|, node
  {
    var reference := ReferenceOf(node);
    if reference.Some? then
      if reference.value in refs then None
      else
        var resolved := Resolve(reference.value, root);
        if resolved.Err? then Some(resolved.error)
        else
          EnteringShrinks(root, refs, reference.value);
          Check(resolved.value, root, refs + [reference.value])
    else CheckDuties(node, Duties(node), root, refs)
  }

  function CheckDuties(context: Json, duties: seq<Duty>, root: Json, refs: seq<string>): Option<SchemaError>
    requires forall d :: d in duties && d.Visit? ==> d.child < context
    decreases |Unentered(root, refs)|, context, |duties|
  {
    if duties == [] then None
    else
      var first := match duties[0] case Reject(error) => Some(error) case Visit(child) => Check(child, root, refs);
      if first.Some? then first else CheckDuties(context, duties[1..], root, refs)
  }

  lemma EnteringShrinks(root: Json, refs: seq<string>, reference: string)
    requires reference in DefReferences(root) && reference !in refs
    ensures |Unentered(root, refs + [reference])| < |Unentered(root, refs)|
  {
    var before, after := Unentered(root, refs), Unentered(root, refs + [reference]);
    assert after <= before && reference in before && reference !in after;
    assert after <= before - {reference};
    SubsetSmaller(after, before - {reference});
  }

  lemma SubsetSmaller(a: set<string>, b: set<string>)
    requires a <= b
    ensures |a| <= |b|
  {
    assert b == a + (b - a);
  }

  // ---------- Exactness ----------

  /** The node-local part of the check. */
  predicate LocallyValid(node: Json, root: Json) {
    var reference := ReferenceOf(node);
    if reference.Some? then Resolve(reference.value, root).Ok?
    else forall d :: d in Duties(node) ==> d.Visit?
  }

  /** The walk's own edges: a reference leads to its definition, anything else to the
      subschemas it asks to visit. */
  predicate Leads(node: Json, next: Json, root: Json) {
    var reference := ReferenceOf(node);
    if reference.Some? then Resolve(reference.value, root) == Ok(next)
    else Visit(next) in Duties(node)
  }

  function EdgesOf(root: Json): (Json, Json) -> bool {
    (a: Json, b: Json) => Leads(a, b, root)
  }

  function ValidIn(root: Json): Json -> bool {
    (node: Json) => LocallyValid(node, root)
  }

  /** Every node any chain of edges can reach passes its local check. */
  ghost predicate Sound(node: Json, root: Json) {
    Everywhere(node, EdgesOf(root), ValidIn(root))
  }

  lemma SoundHere(node: Json, root: Json)
    requires Sound(node, root)
    ensures LocallyValid(node, root)
  {
    EverywhereHere(node, EdgesOf(root), ValidIn(root));
  }

  lemma SoundNext(node: Json, next: Json, root: Json)
    requires Sound(node, root) && Leads(node, next, root)
    ensures Sound(next, root)
  {
    EverywhereNext(node, next, EdgesOf(root), ValidIn(root));
  }

  lemma SoundPartsAreSound(node: Json, root: Json)
    requires Sound(node, root) && ReferenceOf(node).None?
    ensures forall d :: d in Duties(node) ==> d.Visit? && Sound(d.child, root)
  {
    SoundHere(node, root);
    forall d | d in Duties(node) ensures d.Visit? && Sound(d.child, root) {
      SoundNext(node, d.child, root);
    }
  }

  lemma {:induction false} SoundPasses(node: Json, root: Json, refs: seq<string>)
    requires Sound(node, root)
    ensures Check(node, root, refs).None?
    decreases |Unentered(root, refs)|, node
  {
    SoundHere(node, root);
    var reference := ReferenceOf(node);
    if reference.Some? {
      if reference.value !in refs {
        var next := Resolve(reference.value, root).value;
        EnteringShrinks(root, refs, reference.value);
        SoundNext(node, next, root);
        SoundPasses(next, root, refs + [reference.value]);
      }
    } else {
      SoundPartsAreSound(node, root);
      SoundDutiesPass(node, Duties(node), root, refs);
    }
  }

  lemma {:induction false} SoundDutiesPass(context: Json, duties: seq<Duty>, root: Json, refs: seq<string>)
    requires forall d :: d in duties ==> d.Visit? && d.child < context && Sound(d.child, root)
    ensures CheckDuties(context, duties, root, refs).None?
    decreases |Unentered(root, refs)|, context, |duties|
  {
    if duties != [] {
      assert duties[0] in duties;
      SoundPasses(duties[0].child, root, refs);
      SoundDutiesPass(context, duties[1..], root, refs);
    }
  }

  lemma {:induction false} FailingDutyFails(context: Json, duties: seq<Duty>, root: Json, refs: seq<string>, d: Duty)
    requires forall d :: d in duties && d.Visit? ==> d.child < context
    requires d in duties && (d.Visit? ==> Check(d.child, root, refs).Some?)
    ensures CheckDuties(context, duties, root, refs).Some?
    decreases |duties|
  {
    if duties[0] != d {
      assert d in duties[1..];
      FailingDutyFails(context, duties[1..], root, refs, d);
    }
  }

  lemma InvalidNodeFails(node: Json, root: Json, refs: seq<string>)
    requires !LocallyValid(node, root)
    requires ReferenceOf(node).Some? ==> ReferenceOf(node).value !in refs
    ensures Check(node, root, refs).Some?
  {
    if ReferenceOf(node).None? {
      var d :| d in Duties(node) && !d.Visit?;
      FailingDutyFails(node, Duties(node), root, refs, d);
    }
  }

  lemma FailurePropagates(node: Json, next: Json, root: Json, refs: seq<string>)
    requires Leads(node, next, root) && Check(next, root, EnteredFrom(node, ReferenceOf, refs)).Some?
    requires ReferenceOf(node).Some? ==> ReferenceOf(node).value !in refs
    ensures Check(node, root, refs).Some?
  {
    if ReferenceOf(node).None? {
      FailingDutyFails(node, Duties(node), root, refs, Visit(next));
    }
  }

  /** An invalid node at the end of a path makes the walk fail at its start: repeated
      references can be cut out of the path, and the rest is walked to its end. */
  lemma BadPathFails(path: seq<Json>, root: Json)
    requires IsPath(path, EdgesOf(root)) && !LocallyValid(path[|path| - 1], root)
    ensures Check(path[0], root, []).Some?
  {
    var short := ShortenPath(path, EdgesOf(root), ReferenceOf);
    var bad := (node: Json) => !LocallyValid(node, root);
    var fails := (node: Json, refs: seq<string>) => Check(node, root, refs).Some?;
    forall a, r | bad(a) && (ReferenceOf(a).Some? ==> ReferenceOf(a).value !in r) ensures fails(a, r) {
      InvalidNodeFails(a, root, r);
    }
    forall a, b, r |
      && EdgesOf(root)(a, b) && fails(b, EnteredFrom(a, ReferenceOf, r))
      && (ReferenceOf(a).Some? ==> ReferenceOf(a).value !in r)
      ensures fails(a, r)
    {
      FailurePropagates(a, b, root, r);
    }
    FreshBadPathFails(short, EdgesOf(root), ReferenceOf, bad, fails, []);
  }

  /** The walk accepts a schema exactly when every node its edges reach, through however
      many references, passes the local checks; cutting off repeated references loses
      nothing. */
  lemma CheckIsExact(node: Json, root: Json)
    ensures Check(node, root, []).None? <==> Sound(node, root)
  {
    if Sound(node, root) {
      SoundPasses(node, root, []);
    } else {
      var path :| IsPath(path, EdgesOf(root)) && path[0] == node && !ValidIn(root)(path[|path| - 1]);
      BadPathFails(path, root);
    }
  }

  // ---------- What the walk does not see ----------

  predicate NamesObject(kind: Json) {
    kind == Json.String("object") || (kind.Array? && Json.String("object") in kind.items)
  }

  /** A schema that describes objects: its type says so, alone or among others, or it has
      properties. */
  predicate DescribesObjects(node: Json) {
    var kind := node.Get("type");
    (kind.Some? && NamesObject(kind.value)) || HasProperties(node)
  }

  /** Everything a node can be asked for: to refuse unknown fields if it describes objects,
      its properties, and all it is composed of. */
  function FullDuties(node: Json): (duties: seq<Duty>)
    ensures forall d :: d in duties && d.Visit? ==> d.child < node
    ensures forall d :: d in Duties(node) ==> d in duties
  {
    StrictnessDuties(node) + DeclaredDuties(node) + CompositionDuties(node)
  }

  function StrictnessDuties(node: Json): seq<Duty> {
    if DescribesObjects(node) && !RejectsUnknownFields(node) then [Reject(UnknownFields)] else []
  }


  /** All of that, and also a reference beside it, where the walk sees only the reference. */
  predicate FullLeads(node: Json, next: Json, root: Json) {
    || (ReferenceOf(node).Some? && Resolve(ReferenceOf(node).value, root) == Ok(next))
    || Visit(next) in FullDuties(node)
  }

  function FullEdgesOf(root: Json): (Json, Json) -> bool {
    (a: Json, b: Json) => FullLeads(a, b, root)
  }

  predicate FullyValid(node: Json, root: Json) {
    && (ReferenceOf(node).Some? ==> Resolve(ReferenceOf(node).value, root).Ok?)
    && (forall d :: d in FullDuties(node) ==> d.Visit?)
  }

  function FullyValidIn(root: Json): Json -> bool {
    (node: Json) => FullyValid(node, root)
  }

  /** Every part of the schema, whether or not the walk visits it, is valid. */
  ghost predicate FullySound(node: Json, root: Json) {
    Everywhere(node, FullEdgesOf(root), FullyValidIn(root))
  }

  /** What a node asks for and the walk leaves out. */
  predicate Hidden(node: Json, d: Duty) {
    d in FullDuties(node) && (ReferenceOf(node).Some? || d !in Duties(node))
  }

  /** Checked on its own, everything a node hides would pass. */
  ghost predicate HidesNothingBad(node: Json, root: Json) {
    forall d :: Hidden(node, d) ==> d.Visit? && Check(d.child, root, []).None?
  }

  ghost function HidesNothingBadIn(root: Json): Json -> bool {
    (node: Json) => HidesNothingBad(node, root)
  }

  ghost predicate NothingBadHidden(node: Json, root: Json) {
    Everywhere(node, FullEdgesOf(root), HidesNothingBadIn(root))
  }

  lemma FullySoundIffParts(node: Json, root: Json)
    ensures FullySound(node, root) <==>
      FullyValid(node, root) && forall next :: FullLeads(node, next, root) ==> FullySound(next, root)
  {
    var edges, valid := FullEdgesOf(root), FullyValidIn(root);
    if Everywhere(node, edges, valid) {
      EverywhereHere(node, edges, valid);
      forall next | edges(node, next) ensures Everywhere(next, edges, valid) {
        EverywhereNext(node, next, edges, valid);
      }
    } else if valid(node) && forall next :: edges(node, next) ==> Everywhere(next, edges, valid) {
      EverywhereFrom(node, edges, valid);
    }
  }

  lemma FullySoundNext(node: Json, next: Json, root: Json)
    requires FullySound(node, root) && FullLeads(node, next, root)
    ensures FullySound(next, root)
  {
    EverywhereNext(node, next, FullEdgesOf(root), FullyValidIn(root));
  }

  lemma LeadsFully(node: Json, next: Json, root: Json)
    requires Leads(node, next, root)
    ensures FullLeads(node, next, root)
  {
  }

  lemma FullyValidIsValid(node: Json, root: Json)
    requires FullyValid(node, root)
    ensures LocallyValid(node, root)
  {
  }

  lemma FullySoundPasses(node: Json, root: Json)
    requires FullySound(node, root)
    ensures Check(node, root, []).None?
  {
    forall a, b | EdgesOf(root)(a, b) ensures FullEdgesOf(root)(a, b) {
      LeadsFully(a, b, root);
    }
    forall a | FullyValidIn(root)(a) ensures ValidIn(root)(a) {
      FullyValidIsValid(a, root);
    }
    EverywhereAlongFewer(node, EdgesOf(root), FullEdgesOf(root), FullyValidIn(root), ValidIn(root));
    SoundPasses(node, root, []);
  }

  lemma HiddenPartsPass(node: Json, root: Json)
    requires FullySound(node, root)
    ensures HidesNothingBad(node, root)
  {
    FullySoundIffParts(node, root);
    forall d | Hidden(node, d) ensures d.Visit? && Check(d.child, root, []).None? {
      assert FullLeads(node, d.child, root);
      FullySoundPasses(d.child, root);
    }
  }

  /** A node that passes, and hides nothing bad, is valid and leads to nodes that pass. */
  lemma PassingStep(node: Json, root: Json)
    requires Check(node, root, []).None? && HidesNothingBad(node, root)
    ensures FullyValid(node, root)
    ensures forall next :: FullLeads(node, next, root) ==> Check(next, root, []).None?
  {
    CheckIsExact(node, root);
    SoundHere(node, root);
    forall d | d in FullDuties(node) ensures d.Visit? {
      assert Hidden(node, d) || d in Duties(node);
    }
    forall next | FullLeads(node, next, root) ensures Check(next, root, []).None? {
      if Leads(node, next, root) {
        SoundNext(node, next, root);
        CheckIsExact(next, root);
      } else {
        assert Hidden(node, Visit(next));
      }
    }
  }

  function PassesIn(root: Json): Json -> bool {
    (node: Json) => Check(node, root, []).None?
  }

  /** Exactly when acceptance covers the whole schema: all parts of a schema are valid if
      and only if the check accepts it, and would also accept whatever any part hides. */
  lemma AcceptanceCoversAllIff(node: Json, root: Json)
    ensures FullySound(node, root) <==> Check(node, root, []).None? && NothingBadHidden(node, root)
  {
    if FullySound(node, root) {
      FullySoundPasses(node, root);
      forall path | IsPath(path, FullEdgesOf(root)) && path[0] == node
        ensures HidesNothingBadIn(root)(path[|path| - 1])
      {
        EndIsFullySound(path, root);
        HiddenPartsPass(path[|path| - 1], root);
      }
    } else if Check(node, root, []).None? && NothingBadHidden(node, root) {
      forall path | IsPath(path, FullEdgesOf(root)) && path[0] == node ensures FullyValidIn(root)(path[|path| - 1]) {
        PassingPath(path, root);
      }
    }
  }

  lemma {:induction false} EndIsFullySound(path: seq<Json>, root: Json)
    requires IsPath(path, FullEdgesOf(root)) && FullySound(path[0], root)
    ensures FullySound(path[|path| - 1], root)
  {
    if |path| > 1 {
      PathTail(path, FullEdgesOf(root));
      EverywhereNext(path[0], path[1], FullEdgesOf(root), FullyValidIn(root));
      EndIsFullySound(path[1..], root);
    }
  }

  lemma PassingPath(path: seq<Json>, root: Json)
    requires IsPath(path, FullEdgesOf(root)) && Check(path[0], root, []).None? && NothingBadHidden(path[0], root)
    ensures FullyValid(path[|path| - 1], root)
  {
    var edges, good, kept := FullEdgesOf(root), HidesNothingBadIn(root), PassesIn(root);
    forall a, b | good(a) && kept(a) && edges(a, b) ensures kept(b) {
      PassingStep(a, root);
    }
    KeptAlong(path, edges, good, kept);
    PassingStep(path[|path| - 1], root);
  }

  // ---------- The shapes that hide something ----------

  /** None of the three shapes that hide parts: a reference with siblings, an object schema
      without properties but composed of others, and a schema that describes objects though
      its type is not just `object`. */
  predicate Open(node: Json) {
    if ReferenceOf(node).Some? then !DescribesObjects(node) && CompositionDuties(node) == []
    else if IsObjectSchema(node) then HasProperties(node) || CompositionDuties(node) == []
    else !DescribesObjects(node)
  }

  /** The walk itself meets none of these shapes. */
  ghost predicate AllOpen(node: Json, root: Json) {
    Everywhere(node, EdgesOf(root), Open)
  }

  lemma OpenHidesNothing(node: Json, root: Json)
    requires Open(node) && LocallyValid(node, root)
    ensures forall d :: !Hidden(node, d)
  {
    if ReferenceOf(node).None? {
      if IsObjectSchema(node) {
        assert !RejectsUnknownFields(node) ==> Reject(UnknownFields) in Duties(node);
        RefusingDuties(node);
      } else {
        assert Duties(node) == CompositionDuties(node) == FullDuties(node);
      }
    }
  }

  /** What an object schema that refuses unknown fields is asked for in full. */
  lemma RefusingDuties(node: Json)
    requires IsObjectSchema(node) && RejectsUnknownFields(node)
    ensures FullDuties(node) == DeclaredDuties(node) + CompositionDuties(node)
    ensures Duties(node) == if HasProperties(node) then FullDuties(node) else []
  {
    assert StrictnessDuties(node) == [];
    assert [] + DeclaredDuties(node) == DeclaredDuties(node);
  }

  function OpenAndValidIn(root: Json): Json -> bool {
    (node: Json) => Open(node) && LocallyValid(node, root)
  }

  /** Where the walk meets none of the hiding shapes, acceptance covers the whole schema. */
  lemma OpenSchemasAreCovered(node: Json, root: Json)
    requires AllOpen(node, root)
    ensures Check(node, root, []).None? <==> FullySound(node, root)
  {
    AcceptanceCoversAllIff(node, root);
    if Check(node, root, []).None? {
      CheckIsExact(node, root);
      forall path | IsPath(path, FullEdgesOf(root)) && path[0] == node
        ensures HidesNothingBadIn(root)(path[|path| - 1])
      {
        OpenPathHidesNothing(path, root);
      }
    }
  }

  lemma OpenPathHidesNothing(path: seq<Json>, root: Json)
    requires IsPath(path, FullEdgesOf(root)) && AllOpen(path[0], root) && Sound(path[0], root)
    ensures HidesNothingBad(path[|path| - 1], root)
  {
    var edges, walked, good := FullEdgesOf(root), EdgesOf(root), OpenAndValidIn(root);
    assert Everywhere(path[0], walked, good);
    forall a, b | good(a) && edges(a, b) ensures walked(a, b) {
      OpenHidesNothing(a, root);
      assert !Hidden(a, Visit(b));
    }
    OnlyOpenEdges(path, edges, walked, good);
    OpenHidesNothing(path[|path| - 1], root);
  }

  /** Every object schema without properties hides whatever it is composed of: it passes as
      soon as it refuses unknown fields. All of it is valid exactly if all its parts are. */
  lemma BareObjectsHideTheirParts(node: Json, root: Json, refs: seq<string>)
    requires ReferenceOf(node).None? && IsObjectSchema(node) && !HasProperties(node)
    ensures Check(node, root, refs).None? <==> RejectsUnknownFields(node)
    ensures FullySound(node, root) <==>
      RejectsUnknownFields(node) && AllSound(CompositionDuties(node), root)
  {
    FullySoundIffAllDuties(node, root);
    assert DescribesObjects(node) && DeclaredDuties(node) == [];
    BareObjectIsNotWalked(node, root, refs);
  }

  lemma BareObjectIsNotWalked(node: Json, root: Json, refs: seq<string>)
    requires ReferenceOf(node).None? && IsObjectSchema(node) && !HasProperties(node)
    ensures Check(node, root, refs).None? <==> RejectsUnknownFields(node)
  {
    if !RejectsUnknownFields(node) {
      FailingDutyFails(node, Duties(node), root, refs, Reject(UnknownFields));
    }
  }

  lemma FullySoundIffAllDuties(node: Json, root: Json)
    requires ReferenceOf(node).None?
    ensures FullySound(node, root) <==>
      && (DescribesObjects(node) ==> RejectsUnknownFields(node))
      && AllSound(DeclaredDuties(node), root) && AllSound(CompositionDuties(node), root)
  {
    FullySoundIffDuties(node, root);
    AllSoundOfConcat(StrictnessDuties(node) + DeclaredDuties(node), CompositionDuties(node), root);
    AllSoundOfConcat(StrictnessDuties(node), DeclaredDuties(node), root);
    StrictnessIsSoundIff(node, root);
  }

  /** A schema whose type is not just `object` hides its properties, and that it lets
      unknown fields in: it passes as soon as all it is composed of does. */
  lemma OtherTypesHideTheirFields(node: Json, root: Json, refs: seq<string>)
    requires ReferenceOf(node).None? && !IsObjectSchema(node)
    ensures Check(node, root, refs) == CheckDuties(node, CompositionDuties(node), root, refs)
    ensures FullySound(node, root) <==>
      && (DescribesObjects(node) ==> RejectsUnknownFields(node))
      && AllSound(DeclaredDuties(node), root) && AllSound(CompositionDuties(node), root)
  {
    FullySoundIffAllDuties(node, root);
  }

  lemma StrictnessIsSoundIff(node: Json, root: Json)
    ensures AllSound(StrictnessDuties(node), root) <==> (DescribesObjects(node) ==> RejectsUnknownFields(node))
  {
    if DescribesObjects(node) && !RejectsUnknownFields(node) {
      assert Reject(UnknownFields) in StrictnessDuties(node);
    }
  }

  ghost predicate AllSound(duties: seq<Duty>, root: Json) {
    forall d :: d in duties ==> d.Visit? && FullySound(d.child, root)
  }

  lemma AllSoundOfConcat(a: seq<Duty>, b: seq<Duty>, root: Json)
    ensures AllSound(a + b, root) <==> AllSound(a, root) && AllSound(b, root)
  {
    assert forall d :: d in a + b <==> d in a || d in b;
  }

  ghost predicate TargetSound(node: Json, root: Json) {
    ReferenceOf(node).Some? ==>
      var target := Resolve(ReferenceOf(node).value, root); target.Ok? && FullySound(target.value, root)
  }

  lemma FullySoundIffDuties(node: Json, root: Json)
    ensures FullySound(node, root) <==> TargetSound(node, root) && AllSound(FullDuties(node), root)
  {
    if FullySound(node, root) {
      FullySoundPartsAreSound(node, root);
    } else if TargetSound(node, root) && AllSound(FullDuties(node), root) {
      forall next | FullLeads(node, next, root) ensures FullySound(next, root) {
        if Visit(next) in FullDuties(node) {
          assert Visit(next).child == next;
        }
      }
      FullySoundIffParts(node, root);
    }
  }

  lemma FullySoundPartsAreSound(node: Json, root: Json)
    requires FullySound(node, root)
    ensures TargetSound(node, root) && AllSound(FullDuties(node), root)
  {
    FullySoundIffParts(node, root);
    if ReferenceOf(node).Some? {
      FullySoundNext(node, Resolve(ReferenceOf(node).value, root).value, root);
    }
    forall d | d in FullDuties(node) ensures d.Visit? && FullySound(d.child, root) {
      assert d == Visit(d.child);
      FullySoundNext(node, d.child, root);
    }
  }

  /** A reference hides everything beside it: the walk sees its definition alone. */
  lemma ReferencesHideTheirSiblings(node: Json, other: Json, root: Json, refs: seq<string>)
    requires ReferenceOf(node).Some? && ReferenceOf(other) == ReferenceOf(node)
    ensures Check(node, root, refs) == Check(other, root, refs)
    ensures FullySound(node, root) ==> AllSound(FullDuties(node), root)
  {
    FullySoundIffDuties(node, root);
  }

  /** An object schema that lets unknown fields in. */
  const LAX := Object([Member("type", Json.String("object"))])

  const COMPOSED_ONLY := Object([
    Member("type", Json.String("object")), Member("additionalProperties", Bool(false)), Member("allOf", Array([LAX]))])

  const NULLABLE := Object([
    Member("type", Array([Json.String("object"), Json.String("null")])), Member("properties", Object([Member("x", LAX)]))])

  const BESIDE_REFERENCE := Object([
    Member("$defs", Object([Member("any", Object([]))])), Member("$ref", Json.String(DEFS_PREFIX + "any")),
    Member("allOf", Array([LAX]))])

  lemma {:induction false} FindAt(members: seq<Member>, i: nat, key: string)
    requires i <= |members| && forall j :: 0 <= j < i ==> members[j].key != key
    requires i < |members| ==> members[i].key == key
    ensures Find(members, key) == if i < |members| then Some(members[i].value) else None
  {
    if i > 0 {
      FindAt(members[1..], i - 1, key);
    }
  }

  lemma {:induction false} NoKeywords(node: Json, keys: seq<string>)
    requires forall key :: key in keys ==> node.Get(key).None?
    ensures KeywordsDuties(node, keys) == []
  {
    if keys != [] {
      assert keys[0] in keys;
      NoKeywords(node, keys[1..]);
    }
  }

  lemma LaxFails()
    ensures Duties(LAX) == [Reject(UnknownFields)] && ReferenceOf(LAX).None?
    ensures forall root :: Check(LAX, root, []) == Some(UnknownFields) && !FullySound(LAX, root)
  {
    FindAt(LAX.members, 0, "type");
    FindAt(LAX.members, 1, "$ref");
    FindAt(LAX.members, 1, "additionalProperties");
    forall root ensures Check(LAX, root, []) == Some(UnknownFields) && !FullySound(LAX, root) {
      AcceptanceCoversAllIff(LAX, root);
    }
  }

  lemma ComposedOnlyIsBare()
    ensures ReferenceOf(COMPOSED_ONLY).None? && IsObjectSchema(COMPOSED_ONLY) && !HasProperties(COMPOSED_ONLY)
    ensures RejectsUnknownFields(COMPOSED_ONLY)
  {
    FindAt(COMPOSED_ONLY.members, 0, "type");
    FindAt(COMPOSED_ONLY.members, 1, "additionalProperties");
    FindAt(COMPOSED_ONLY.members, 3, "$ref");
    FindAt(COMPOSED_ONLY.members, 3, "properties");
  }

  lemma ComposedOnlyPasses()
    ensures Check(COMPOSED_ONLY, COMPOSED_ONLY, []).None? && !FullySound(COMPOSED_ONLY, COMPOSED_ONLY)
  {
    ComposedOnlyIsBare();
    ComposedOnlyHoldsLax();
    LaxFails();
    BareObjectWithBadPart(COMPOSED_ONLY, COMPOSED_ONLY, LAX);
  }

  lemma ComposedOnlyHoldsLax()
    ensures Visit(LAX) in CompositionDuties(COMPOSED_ONLY)
  {
    FindAt(COMPOSED_ONLY.members, 2, "allOf");
    assert Visit(LAX) in AllOfDuties(COMPOSED_ONLY);
  }

  lemma BareObjectWithBadPart(node: Json, root: Json, part: Json)
    requires ReferenceOf(node).None? && IsObjectSchema(node) && !HasProperties(node) && RejectsUnknownFields(node)
    requires Visit(part) in CompositionDuties(node) && !FullySound(part, root)
    ensures Check(node, root, []).None? && !FullySound(node, root)
  {
    BareObjectsHideTheirParts(node, root, []);
  }

  lemma NullableLacks(key: string)
    requires key in KEYWORDS + ["$ref", "items", "allOf", "additionalProperties"]
    ensures NULLABLE.Get(key).None?
  {
    assert |key| != |"properties"| && (|key| == |"type"| ==> key[1] != 'y');
    FindAt(NULLABLE.members, 2, key);
  }

  lemma NullablePasses()
    ensures Check(NULLABLE, NULLABLE, []).None? && !FullySound(NULLABLE, NULLABLE)
  {
    var node := NULLABLE;
    var kinds := [Json.String("object"), Json.String("null")];
    FindAt(node.members, 0, "type");
    assert Json.String("object") == kinds[0] && NamesObject(Array(kinds));
    NullableLacks("additionalProperties");
    NullableLacks("$ref");
    NullableLacks("items");
    NullableLacks("allOf");
    forall key | key in KEYWORDS ensures node.Get(key).None? {
      NullableLacks(key);
    }
    NoKeywords(node, KEYWORDS);
    OtherTypesHideTheirFields(node, node, []);
  }

  lemma AnythingPasses(root: Json, refs: seq<string>)
    ensures Check(Object([]), root, refs).None?
  {
    NoKeywords(Object([]), KEYWORDS);
  }

  lemma AnyIsDefined()
    ensures Resolve(DEFS_PREFIX + "any", BESIDE_REFERENCE) == Ok(Object([]))
  {
    var any := DEFS_PREFIX + "any";
    assert HasDefsPrefix(any) && any[|DEFS_PREFIX|..] == "any";
    FindAt(BESIDE_REFERENCE.members, 0, "$defs");
    FindAt([Member("any", Object([]))], 0, "any");
  }

  lemma BesideReferencePasses()
    ensures Check(BESIDE_REFERENCE, BESIDE_REFERENCE, []).None? && !FullySound(BESIDE_REFERENCE, BESIDE_REFERENCE)
  {
    var node, any := BESIDE_REFERENCE, DEFS_PREFIX + "any";
    FindAt(node.members, 1, "$ref");
    AnyIsDefined();
    AnythingPasses(node, [] + [any]);
    BesideReferenceIsUnsound();
  }

  lemma BesideReferenceIsUnsound()
    ensures !FullySound(BESIDE_REFERENCE, BESIDE_REFERENCE)
  {
    var node := BESIDE_REFERENCE;
    FindAt(node.members, 2, "allOf");
    LaxFails();
    assert Visit(LAX) in AllOfDuties(node);
    assert Visit(LAX) in FullDuties(node);
    FullySoundIffDuties(node, node);
  }

  function Inner(schema: Json): Json {
    var inner := schema.Get("schema");
    if inner.Some? then inner.value else schema
  }

  // ---------- The walk in place ----------

  /** The mutable stack of references on the current path. */
  class RefStack {
    var refs: seq<string>

    constructor ()
      ensures refs == []
    {
      refs := [];
    }
  }

  method ValidateNode(node: Json, root: Json, stack: RefStack) returns (error: Option<SchemaError>)
    modifies stack
    ensures error == Check(node, root, old(stack.refs)) && stack.refs == old(stack.refs)
    decreases |Unentered(root, stack.refs)|, node
  {
    var reference := ReferenceOf(node);
    if reference.Some? {
      if reference.value in stack.refs {
        return None;
      }
      var resolved := Resolve(reference.value, root);
      if resolved.Err? {
        return Some(resolved.error);
      }
      EnteringShrinks(root, stack.refs, reference.value);
      stack.refs := stack.refs + [reference.value];
      error := ValidateNode(resolved.value, root, stack);
      stack.refs := stack.refs[..|stack.refs| - 1];
      return error;
    }
    if IsObjectSchema(node) {
      if !RejectsUnknownFields(node) {
        return Some(UnknownFields);
      }
      if HasProperties(node) {
        error := ValidateProperties(node, node.Get("properties").value.members, root, stack);
        DutiesInSequence(node, DeclaredDuties(node), CompositionDuties(node), root, stack.refs);
        if error.Some? {
          return error;
        }
      } else {
        return None;
      }
    }
    error := ValidateDuties(node, CompositionDuties(node), root, stack);
  }

  /** The first property decides, or the rest do. */
  lemma PropertyDutiesFirst(context: Json, properties: seq<Member>, root: Json, refs: seq<string>)
    requires forall m :: m in properties ==> m.value < context
    requires properties != []
    ensures forall m :: m in properties[1..] ==> m.value < context
    ensures var child := properties[0].value;
      var rest := CheckDuties(context, PropertyDuties(context, properties[1..]), root, refs);
      CheckDuties(context, PropertyDuties(context, properties), root, refs) ==
        if !Described(child) then Some(MissingDescription(properties[0].key))
        else
          var failed := Check(child, root, refs);
          if failed.Some? then failed else rest
  {
    var duties := PropertyDuties(context, properties);
    assert duties[1..] == PropertyDuties(context, properties[1..]);
  }

  method ValidateProperties(context: Json, properties: seq<Member>, root: Json, stack: RefStack)
    returns (error: Option<SchemaError>)
    requires forall m :: m in properties ==> m.value < context
    modifies stack
    ensures error == CheckDuties(context, PropertyDuties(context, properties), root, old(stack.refs))
    ensures stack.refs == old(stack.refs)
    decreases |Unentered(root, stack.refs)|, context, 1
  {
    for i := 0 to |properties|
      invariant stack.refs == old(stack.refs)
      invariant CheckDuties(context, PropertyDuties(context, properties), root, stack.refs) ==
                CheckDuties(context, PropertyDuties(context, properties[i..]), root, stack.refs)
    {
      var child := properties[i].value;
      assert properties[i..][1..] == properties[i + 1..];
      PropertyDutiesFirst(context, properties[i..], root, stack.refs);
      if !Described(child) {
        return Some(MissingDescription(properties[i].key));
      }
      var failed := ValidateNode(child, root, stack);
      if failed.Some? {
        return failed;
      }
    }
    return None;
  }

  method ValidateDuties(context: Json, duties: seq<Duty>, root: Json, stack: RefStack)
    returns (error: Option<SchemaError>)
    requires forall d :: d in duties ==> d.Visit? && d.child < context
    modifies stack
    ensures error == CheckDuties(context, duties, root, old(stack.refs)) && stack.refs == old(stack.refs)
    decreases |Unentered(root, stack.refs)|, context, 1
  {
    for i := 0 to |duties|
      invariant stack.refs == old(stack.refs)
      invariant CheckDuties(context, duties, root, stack.refs) == CheckDuties(context, duties[i..], root, stack.refs)
    {
      assert duties[i] in duties && duties[i..][1..] == duties[i + 1..];
      var failed := ValidateNode(duties[i].child, root, stack);
      if failed.Some? {
        return failed;
      }
    }
    return None;
  }

  lemma {:induction false} DutiesInSequence(
    context: Json, a: seq<Duty>, b: seq<Duty>, root: Json, refs: seq<string>)
    requires forall d :: d in a + b && d.Visit? ==> d.child < context
    ensures (forall d :: d in a && d.Visit? ==> d.child < context) && (forall d :: d in b && d.Visit? ==> d.child < context)
    ensures var first := CheckDuties(context, a, root, refs);
      CheckDuties(context, a + b, root, refs) == if first.Some? then first else CheckDuties(context, b, root, refs)
    decreases |a|
  {
    assert forall d :: d in a || d in b ==> d in a + b;
    if a == [] {
      assert a + b == b;
    } else {
      assert (a + b)[1..] == a[1..] + b;
      DutiesInSequence(context, a[1..], b, root, refs);
    }
  }

  /** The published check: exact, for the schema or the one wrapped under `schema`. */
  method ValidateSchemaShape(schema: Json) returns (error: Option<SchemaError>)
    ensures error.None? <==> Sound(Inner(schema), schema)
    ensures FullySound(Inner(schema), schema) <==> error.None? && NothingBadHidden(Inner(schema), schema)
  {
    var stack := new RefStack();
    error := ValidateNode(Inner(schema), schema, stack);
    CheckIsExact(Inner(schema), schema);
    AcceptanceCoversAllIff(Inner(schema), schema);
  }
}
