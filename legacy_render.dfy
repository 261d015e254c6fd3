/**
 * The older `render` (lib/render.js): copy the payload, force the article
 * defaults, and collect the content items one level deep, splicing in the
 * children of `multi` wrappers.
 */
module LegacyRender {
  import opened Json
  import opened Content

  /** The Apple News Format version every article is given. */
  const Version: string := "1.5"

  /** The language every article is given. */
  const Language: string := "en"

  /** The layout every article is given. */
  const Layout: Value :=
    Obj(map["columns" := Num(10), "width" := Num(1024), "margin" := Num(85), "gutter" := Num(20)])

  /** The value returned to the caller: the article and its type tag. */
  datatype Response = Response(output: map<string, Field>, responseType: string)

  /**
   * What one content item adds to `components`: the item without `_ref`
   * when it has a role; otherwise the children of a `multi` wrapper as they
   * are (a wrapper without children adds nothing); otherwise nothing.
   */
  function Contribution(item: Node): (r: seq<Node>)
    ensures HasRole(item) ==> r == [WithoutRef(item)] && r[0].ref.None? && "_ref" !in r[0].extra
    ensures !HasRole(item) && item.multi && item.components.Present? ==> r == item.components.nodes
    ensures !HasRole(item) && !item.multi ==> r == []
    ensures item.components.Absent? && !HasRole(item) ==> r == []
  {
    if HasRole(item) then [WithoutRef(item)]
    else if item.multi then
      match item.components
      case Present(cs) => cs
      case Absent => []
    else []
  }

  /**
   * The contributions of `items`, concatenated in order: one component per
   * item with a role plus one per child of each `multi` wrapper without a
   * role; items with neither add none.
   */
  function Flattened(items: seq<Node>): (r: seq<Node>)
    ensures |r| == CountRoled(items) + MultiChildren(items)
  {
    if items == [] then [] else Contribution(items[0]) + Flattened(items[1..])
  }

  /** How many of `items` have a role. */
  function CountRoled(items: seq<Node>): nat {
    if items == [] then 0 else (if HasRole(items[0]) then 1 else 0) + CountRoled(items[1..])
  }

  /** The total number of children of the `multi` wrappers among `items` that have no role. */
  function MultiChildren(items: seq<Node>): nat {
    if items == [] then 0
    else
      var item := items[0];
      (if !HasRole(item) && item.multi && item.components.Present? then |item.components.nodes| else 0)
      + MultiChildren(items[1..])
  }

  /**
   * The article: a copy of the payload (its `_ref` included) with
   * `components` replaced by the flattened content, the version, language
   * and layout forced to fixed values, and `content` left out; tagged
   * `"json"`.
   */
  method Render(data: Payload) returns (res: Response)
    ensures res.responseType == "json"
    ensures res.output.Keys ==
              data.rest.Keys - Reserved + {"components", "version", "language", "layout"}
              + (if data.ref.Some? then {"_ref"} else {})
    ensures "content" !in res.output
    ensures res.output["version"] == Plain(Str(Version))
    ensures res.output["language"] == Plain(Str(Language))
    ensures res.output["layout"] == Plain(Layout)
    ensures res.output["components"] == Nodes(Flattened(data.content.GetOr([])))
    ensures data.ref.Some? ==> res.output["_ref"] == Plain(Str(data.ref.value))
    ensures forall k :: k in data.rest && k !in Reserved && k !in {"version", "language", "layout"} ==>
              res.output[k] == Plain(data.rest[k])
  {
    var article := OtherFields(data);
    if data.ref.Some? {
      article := article["_ref" := Plain(Str(data.ref.value))];
    }
    article := article["version" := Plain(Str(Version))];
    article := article["language" := Plain(Str(Language))];
    article := article["layout" := Plain(Layout)];

    var components := CollectComponents(data.content.GetOr([]));
    article := article["components" := Nodes(components)];
    res := Response(article, "json");
  }

  /**
   * The `_.forEach` over the content: each item with a role is pushed
   * without `_ref`, each `multi` wrapper without a role has its children
   * pushed one by one, and everything else is skipped.
   */
  method CollectComponents(content: seq<Node>) returns (components: seq<Node>)
    ensures components == Flattened(content)
  {
    components := [];
    var i := 0;
    while i < |content|
      invariant 0 <= i <= |content|
      invariant components == Flattened(content[..i])
    {
      var item := content[i];
      FlattenedStep(content, i);
      if HasRole(item) {
        components := components + [WithoutRef(item)];
      } else if item.multi && item.components.Present? {
        var children := item.components.nodes;
        var j := 0;
        while j < |children|
          invariant 0 <= j <= |children|
          invariant components == Flattened(content[..i]) + children[..j]
        {
          components := components + [children[j]];
          assert children[..j + 1] == children[..j] + [children[j]];
          j := j + 1;
        }
        assert children[..j] == children;
      }
      i := i + 1;
    }
    assert content[..i] == content;
  }

  // ----- Properties -----

  /** What one more content item adds to the flattened components. */
  lemma FlattenedStep(items: seq<Node>, i: nat)
    requires i < |items|
    ensures Flattened(items[..i + 1]) == Flattened(items[..i]) + Contribution(items[i])
  {
    assert items[..i + 1] == items[..i] + [items[i]];
    FlattenedAppend(items[..i], [items[i]]);
    assert [items[i]][1..] == [];
  }

  /** Each item's contribution lands in content order: flattening commutes with concatenation. */
  lemma {:induction false} FlattenedAppend(a: seq<Node>, b: seq<Node>)
    ensures Flattened(a + b) == Flattened(a) + Flattened(b)
  {
    if a == [] {
      assert a + b == b;
    } else {
      assert (a + b)[1..] == a[1..] + b;
      FlattenedAppend(a[1..], b);
    }
  }

  /** Content whose every item has a role gives each item minus `_ref`, one for one, in order. */
  lemma {:induction false} FlattenedAllRoled(items: seq<Node>)
    requires forall i :: 0 <= i < |items| ==> HasRole(items[i])
    ensures |Flattened(items)| == |items|
    ensures forall i :: 0 <= i < |items| ==> Flattened(items)[i] == WithoutRef(items[i])
  {
    if items != [] {
      FlattenedAllRoled(items[1..]);
      assert Flattened(items) == [WithoutRef(items[0])] + Flattened(items[1..]);
    }
  }

  /** Content with neither a role nor a `multi` flag on any item gives no components. */
  lemma {:induction false} FlattenedNoneRenderable(items: seq<Node>)
    requires forall i :: 0 <= i < |items| ==> !HasRole(items[i]) && !items[i].multi
    ensures Flattened(items) == []
  {
    if items != [] {
      FlattenedNoneRenderable(items[1..]);
    }
  }
}
