/**
 * The mock content tree of the renderer's unit tests (index.test.js), and
 * what sanitising it yields.
 */
module Scenarios {
  import opened Json
  import opened Content
  import opened Sanitizer

  /** A node with no `multi` flag. */
  function Cmpt(ref: Option<string>, role: Option<string>, components: Components, extra: map<string, Value>): Node {
    Node(ref, role, false, components, extra)
  }

  function Title(ref: Option<string>): Node {
    Cmpt(ref, Some("title"), Absent, map["text" := Str("This is a Story")])
  }

  function Photo(): Node {
    Cmpt(None, Some("photo"), Absent, map["URL" := Str("zoe.com/coolpic.jpg")])
  }

  function Caption(ref: Option<string>): Node {
    Cmpt(ref, Some("caption"), Absent, map["text" := Str("Photo: zoe's photo studio")])
  }

  function Body(ref: Option<string>): Node {
    Cmpt(ref, Some("body"), Absent, map["text" := Str("hey there!")])
  }

  /** A component without a role. */
  function Orphan(ref: string, text: string): Node {
    Cmpt(Some(ref), None, Absent, if text == "" then map[] else map["text" := Str(text)])
  }

  function Section(children: seq<Node>): Node {
    Cmpt(None, Some("section"), Present(children), map[])
  }

  function Container(ref: Option<string>, children: seq<Node>): Node {
    Cmpt(ref, Some("container"), Present(children), map[])
  }

  /** The section that ends the mock container: one role-less child, one body. */
  function MockSection(): Node {
    Section([Orphan("useless/thing", ""), Body(Some("useable/thing"))])
  }

  /**
   * The mock container; the one in the mock content list has a caption
   * without `_ref`, the stand-alone one a caption with `_ref`.
   */
  function MockContainer(captionRef: Option<string>): Node {
    Container(Some("some/component/uri3"), [
      Photo(), Caption(captionRef),
      Orphan("some/unrenderable/component", "I should not be rendered for apple news!"),
      MockSection()
    ])
  }

  /** The stand-alone mock component the sanitiser's unit tests use. */
  function MockCmpt(): Node {
    MockContainer(Some("component/ref"))
  }

  /** The mock content list: a title, an unrenderable item and a nested container. */
  function MockContent(): seq<Node> {
    [
      Title(Some("some/component/uri1")),
      Orphan("some/unrenderable/component", "I contribute nothing to the discourse !!"),
      MockContainer(None)
    ]
  }

  /** A leaf whose other fields hold no `_ref` comes back with only its `ref` cleared. */
  lemma LeafSanitized(n: Node)
    requires HasRole(n) && n.components.Absent? && "_ref" !in n.extra
    ensures Sanitize(n).clean == Some(n.(ref := None))
  {
    assert n.extra - {"_ref"} == n.extra;
  }

  lemma MockSectionSanitized()
    ensures Sanitize(MockSection()).clean == Some(Section([Body(None)]))
    ensures Sanitize(MockSection()).log == [Warn(SkipMessage, "useless/thing")]
  {
    var cs := MockSection().components.nodes;
    assert cs[1..][1..] == [];
    LeafSanitized(Body(Some("useable/thing")));
    assert Kept(cs) == [Body(None)];
    ContainerKeepsRoledChildren(MockSection());
    assert MockSection().extra - {"_ref"} == MockSection().extra;
    LogIsOneWarningPerUnrenderable(MockSection());
    assert UnrenderableAll(cs) == [cs[0]];
  }

  /**
   * Either mock container keeps photo, caption (without `_ref`) and the
   * cleaned section, in order.
   */
  lemma MockContainerSanitized(captionRef: Option<string>)
    ensures Sanitize(MockContainer(captionRef)).clean ==
              Some(Container(None, [Photo(), Caption(None), Section([Body(None)])]))
  {
    var n := MockContainer(captionRef);
    var cs := n.components.nodes;
    MockSectionSanitized();
    LeafSanitized(Photo());
    LeafSanitized(Caption(captionRef));
    assert cs == [cs[0], cs[1], cs[2], cs[3]];
    FourItemsKept(cs[0], cs[1], cs[2], cs[3]);
    var kept := [Photo(), Caption(None), Section([Body(None)])];
    assert Kept(cs) == kept;
    ContainerKeepsRoledChildren(n);
    var r := Sanitize(n).clean.value;
    assert r.extra == map[];
    assert r == Container(None, kept);
  }

  /** Either mock container drops its unrenderable child and the section's role-less child. */
  lemma MockContainerDrops(captionRef: Option<string>)
    ensures Unrenderable(MockContainer(captionRef)) ==
              [Orphan("some/unrenderable/component", "I should not be rendered for apple news!"),
               Orphan("useless/thing", "")]
  {
    var n := MockContainer(captionRef);
    var cs := n.components.nodes;
    assert cs == [cs[0], cs[1], cs[2], cs[3]];
    FourItemsUnrenderable(cs[0], cs[1], cs[2], cs[3]);
    assert Unrenderable(MockSection()) == [Orphan("useless/thing", "")] by {
      var ss := MockSection().components.nodes;
      assert ss == [ss[0]] + [ss[1]];
      KeptAppend([ss[0]], [ss[1]]);
      Singleton(ss[0]);
      Singleton(ss[1]);
    }
  }

  /** Kept nodes of a four-item list whose third item alone has no role. */
  lemma FourItemsKept(a: Node, b: Node, c: Node, d: Node)
    requires HasRole(a) && HasRole(b) && !HasRole(c) && HasRole(d)
    ensures Kept([a, b, c, d]) ==
              [Sanitize(a).clean.value, Sanitize(b).clean.value, Sanitize(d).clean.value]
  {
    var cs := [a, b, c, d];
    assert cs[1..] == [b, c, d] && cs[1..][1..] == [c, d] && cs[1..][1..][1..] == [d];
    Singleton(d);
    assert Kept([c, d]) == Kept([d]);
    assert Kept([b, c, d]) == [Sanitize(b).clean.value] + Kept([c, d]);
  }

  /** Dropped nodes of a four-item list whose third item alone has no role. */
  lemma FourItemsUnrenderable(a: Node, b: Node, c: Node, d: Node)
    requires !HasRole(c)
    ensures UnrenderableAll([a, b, c, d]) ==
              Unrenderable(a) + Unrenderable(b) + [c] + Unrenderable(d)
  {
    var cs := [a, b, c, d];
    assert cs[1..] == [b, c, d] && cs[1..][1..] == [c, d] && cs[1..][1..][1..] == [d];
    Singleton(d);
    assert UnrenderableAll([c, d]) == [c] + Unrenderable(d);
    assert UnrenderableAll([b, c, d]) == Unrenderable(b) + [c] + Unrenderable(d);
  }

  /** One skip warning for each of three nodes, in order. */
  lemma ThreeWarnings(x: Node, y: Node, z: Node)
    ensures SkipWarnings([x, y, z]) == [SkipWarning(x), SkipWarning(y), SkipWarning(z)]
  {
    assert [x, y, z][1..] == [y, z] && [y, z][1..] == [z] && [z][1..] == [];
    assert SkipWarnings([z]) == [SkipWarning(z)];
    assert SkipWarnings([y, z]) == [SkipWarning(y), SkipWarning(z)];
  }

  /**
   * Sanitising the stand-alone mock component removes `_ref` from the
   * container and from its caption, and keeps photo, caption and the
   * section holding only its body.
   */
  lemma MockCmptSanitized()
    ensures Sanitize(MockCmpt()).clean == Some(Container(None, [
              Cmpt(None, Some("photo"), Absent, map["URL" := Str("zoe.com/coolpic.jpg")]),
              Cmpt(None, Some("caption"), Absent, map["text" := Str("Photo: zoe's photo studio")]),
              Cmpt(None, Some("section"), Present([
                Cmpt(None, Some("body"), Absent, map["text" := Str("hey there!")])
              ]), map[])
            ]))
  {
    MockContainerSanitized(Some("component/ref"));
  }

  /** Kept nodes of a three-item list whose middle item has no role. */
  lemma ThreeItemsKept(a: Node, b: Node, d: Node)
    requires HasRole(a) && !HasRole(b) && HasRole(d)
    ensures Kept([a, b, d]) == [Sanitize(a).clean.value, Sanitize(d).clean.value]
  {
    assert [a, b, d] == [a] + ([b] + [d]);
    KeptAppend([a], [b] + [d]);
    KeptAppend([b], [d]);
    Singleton(a);
    Singleton(b);
    Singleton(d);
  }

  /** Dropped nodes of a three-item list whose middle item has no role. */
  lemma ThreeItemsUnrenderable(a: Node, b: Node, d: Node)
    requires !HasRole(b)
    ensures UnrenderableAll([a, b, d]) == Unrenderable(a) + [b] + Unrenderable(d)
  {
    assert [a, b, d] == [a] + ([b] + [d]);
    KeptAppend([a], [b] + [d]);
    KeptAppend([b], [d]);
    Singleton(a);
    Singleton(b);
    Singleton(d);
  }

  /** Rendering the mock content keeps the title (without `_ref`) first and the container second. */
  lemma MockContentKept()
    ensures Kept(MockContent()) ==
              [Title(None), Container(None, [Photo(), Caption(None), Section([Body(None)])])]
  {
    MockContainerSanitized(None);
    LeafSanitized(Title(Some("some/component/uri1")));
    ThreeItemsKept(Title(Some("some/component/uri1")),
                   Orphan("some/unrenderable/component", "I contribute nothing to the discourse !!"),
                   MockContainer(None));
  }

  /**
   * Rendering the mock content logs exactly three warnings: two for the
   * unrenderable components and one for the role-less child of the section.
   */
  lemma MockContentWarnsThrice()
    ensures SkipWarnings(UnrenderableAll(MockContent())) == [
              Warn(SkipMessage, "some/unrenderable/component"),
              Warn(SkipMessage, "some/unrenderable/component"),
              Warn(SkipMessage, "useless/thing")]
  {
    var orphan := Orphan("some/unrenderable/component", "I contribute nothing to the discourse !!");
    MockContainerDrops(None);
    ThreeItemsUnrenderable(Title(Some("some/component/uri1")), orphan, MockContainer(None));
    var dropped := [orphan] + Unrenderable(MockContainer(None));
    assert dropped == [dropped[0], dropped[1], dropped[2]];
    ThreeWarnings(dropped[0], dropped[1], dropped[2]);
  }
}
