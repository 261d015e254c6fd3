/**
 * The content tree that the Clay rendering pipeline hands to the Apple News
 * renderer, the article object it builds, and the diagnostics it logs.
 */
module Content {
  import opened Json

  /**
   * The `components` field of a node: absent, or an ordered list of child
   * nodes (any array, even an empty one, is truthy in JavaScript).
   */
  datatype Components = Absent | Present(nodes: seq<Node>)

  /**
   * One content component. `ref` is the pipeline's `_ref` (origin tracking,
   * never valid in the output); `role` marks a component already shaped for
   * Apple News; `multi` marks a wrapper whose children stand for it; `extra`
   * holds every other field (text, URLs, styling), which is only copied.
   * A node built from a JavaScript object keeps `_ref`, `role`, `multi` and
   * `components` out of `extra`; no operation relies on that, and a stray
   * `"_ref"` key in `extra` is removed together with `ref` (`WithoutRef`),
   * so a clean node has neither.
   */
  datatype Node = Node(
    ref: Option<string>,
    role: Option<string>,
    multi: bool,
    components: Components,
    extra: map<string, Value>)

  /** `cmpt.role` is truthy: present and not the empty string. */
  predicate HasRole(n: Node)
    ensures HasRole(n) <==> n.role !in {None, Some("")}
  {
    n.role.Some? && n.role.value != ""
  }

  /**
   * `_.omit(n, '_ref')`: a copy of the node without its `_ref`. A `"_ref"`
   * key is `ref`; should one also stand in `extra`, it is the same key and
   * goes too.
   */
  function WithoutRef(n: Node): (r: Node)
    ensures r.ref.None? && "_ref" !in r.extra
    ensures r.(ref := n.ref, extra := n.extra) == n
    ensures forall k :: k in n.extra && k != "_ref" ==> k in r.extra && r.extra[k] == n.extra[k]
    ensures r.extra.Keys == n.extra.Keys - {"_ref"}
  {
    n.(ref := None, extra := n.extra - {"_ref"})
  }

  /**
   * The shape of every component the sanitiser lets through: it has a role,
   * it has no `_ref`, and the same holds of every node below it.
   */
  predicate IsClean(n: Node) {
    && HasRole(n)
    && n.ref.None?
    && "_ref" !in n.extra
    && (n.components.Present? ==>
          forall i :: 0 <= i < |n.components.nodes| ==> IsClean(n.components.nodes[i]))
  }

  /** A field of an output article: a plain JSON value or a list of components. */
  datatype Field = Plain(value: Value) | Nodes(nodes: seq<Node>)

  /**
   * The top-level payload of a render request. `content` and `components`
   * are the two names under which the content list may arrive, `ref` is the
   * payload's own `_ref`, and `rest` holds every other top-level field.
   */
  datatype Payload = Payload(
    ref: Option<string>,
    content: Option<seq<Node>>,
    components: Option<seq<Node>>,
    rest: map<string, Value>)

  /** The field names that `Payload` models on their own. */
  const Reserved: set<string> := {"_ref", "content", "components"}

  /** The payload's other fields, as article fields. */
  function OtherFields(data: Payload): (m: map<string, Field>)
    ensures m.Keys == data.rest.Keys - Reserved
    ensures forall k :: k in m ==> m[k] == Plain(data.rest[k])
  {
    map k | k in data.rest && k !in Reserved :: Plain(data.rest[k])
  }

  /** A diagnostic handed to the logger. */
  datatype LogEntry =
    | Warn(message: string, cmptName: string)
    | Error(message: string)
}
