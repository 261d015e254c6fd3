/**
 * `sanitizeComponent` (index.js): the recursive walk that keeps the
 * components already shaped for Apple News, strips their `_ref`, and drops
 * (with one warning each) the ones that are not.
 */
module Sanitizer {
  import opened Json
  import opened Content

  /** The message logged at warn level for every dropped component. */
  const SkipMessage: string := "Component not formatted for apple news, skipping"

  /** The identifier logged for a dropped component: its `_ref`, or "unknown". */
  function RefOrUnknown(n: Node): string {
    n.ref.GetOr("unknown")
  }

  /** The warning logged when `n` is dropped. */
  function SkipWarning(n: Node): LogEntry {
    Warn(SkipMessage, RefOrUnknown(n))
  }

  /**
   * The effect of one `sanitizeComponent` call: `updated` is the argument
   * after the call (the source overwrites a container's `components` in
   * place), `clean` the returned component or `None` for `undefined`, and
   * `log` the warnings logged during the call, in order.
   */
  datatype Sanitized = Sanitized(updated: Node, clean: Option<Node>, log: seq<LogEntry>)

  /**
   * Leaf (role, no components): a copy without `_ref`. Container (role and
   * components): every child is sanitised in order, the survivors are written
   * back into the node's `components`, and the node is returned without
   * `_ref`. Anything else: one warning, and the node with its whole subtree
   * is dropped.
   */
  function Sanitize(n: Node): (r: Sanitized)
    ensures r.clean.Some? <==> HasRole(n)
    ensures r.clean.Some? ==> r.clean.value == WithoutRef(r.updated) && IsClean(r.clean.value)
    ensures r.updated.(components := n.components) == n
    ensures r.updated.components.Present? <==> n.components.Present?
    ensures !(HasRole(n) && n.components.Present?) ==> r.updated == n
    ensures !HasRole(n) ==> r.log == [SkipWarning(n)]
    ensures HasRole(n) && n.components.Absent? ==> r.log == []
  {
    if HasRole(n) && n.components.Absent? then
      Sanitized(n, Some(WithoutRef(n)), [])
    else if n.components.Present? && HasRole(n) then
      var results := SanitizeEach(n.components.nodes);
      var updated := n.(components := Present(Survivors(results)));
      Sanitized(updated, Some(WithoutRef(updated)), Logs(results))
    else
      Sanitized(n, None, [SkipWarning(n)])
  }

  /** `_.map(cs, sanitizeComponent)`: every node sanitised, left to right. */
  function SanitizeEach(cs: seq<Node>): (rs: seq<Sanitized>)
    ensures |rs| == |cs|
    ensures forall i :: 0 <= i < |cs| ==> rs[i] == Sanitize(cs[i])
  {
    if cs == [] then [] else [Sanitize(cs[0])] + SanitizeEach(cs[1..])
  }

  /** `_.filter(results, (clean) => !!clean)`: the returned components, in order. */
  function Survivors(rs: seq<Sanitized>): (kept: seq<Node>)
    ensures |kept| <= |rs|
    ensures (forall i :: 0 <= i < |rs| && rs[i].clean.Some? ==> IsClean(rs[i].clean.value)) ==>
              forall j :: 0 <= j < |kept| ==> IsClean(kept[j])
  {
    if rs == [] then []
    else (if rs[0].clean.Some? then [rs[0].clean.value] else []) + Survivors(rs[1..])
  }

  /** The warnings of a sequence of calls, in call order. */
  function Logs(rs: seq<Sanitized>): seq<LogEntry> {
    if rs == [] then [] else rs[0].log + Logs(rs[1..])
  }

  // ----- Reference definitions -----

  /** The nodes of `cs` that have no role: those dropped at this level. */
  function Roleless(cs: seq<Node>): seq<Node> {
    if cs == [] then []
    else (if HasRole(cs[0]) then [] else [cs[0]]) + Roleless(cs[1..])
  }

  /** The nodes of `cs` that have a role, each sanitised, in their original order. */
  function Kept(cs: seq<Node>): seq<Node> {
    if cs == [] then []
    else (if HasRole(cs[0]) then [Sanitize(cs[0]).clean.value] else []) + Kept(cs[1..])
  }

  /**
   * The role-less nodes reached from `n` through role-bearing ancestors only,
   * depth first and left to right: the nodes the sanitiser drops.
   */
  function Unrenderable(n: Node): seq<Node> {
    if !HasRole(n) then [n]
    else match n.components
      case Absent => []
      case Present(cs) => UnrenderableAll(cs)
  }

  /** `Unrenderable` of every node of `cs`, concatenated in order. */
  function UnrenderableAll(cs: seq<Node>): seq<Node> {
    if cs == [] then [] else Unrenderable(cs[0]) + UnrenderableAll(cs[1..])
  }

  /** One skip warning per node, in order. */
  function SkipWarnings(ns: seq<Node>): (ws: seq<LogEntry>)
    ensures |ws| == |ns|
  {
    if ns == [] then [] else [SkipWarning(ns[0])] + SkipWarnings(ns[1..])
  }

  // ----- Properties -----

  /** Every node of `cs` is either kept or dropped at this level, never both. */
  lemma {:induction false} KeptCount(cs: seq<Node>)
    ensures |Kept(cs)| + |Roleless(cs)| == |cs|
  {
    if cs != [] {
      KeptCount(cs[1..]);
    }
  }

  /** Filtering and sanitising commute with concatenation: order is preserved. */
  lemma {:induction false} KeptAppend(a: seq<Node>, b: seq<Node>)
    ensures Kept(a + b) == Kept(a) + Kept(b)
    ensures Roleless(a + b) == Roleless(a) + Roleless(b)
    ensures UnrenderableAll(a + b) == UnrenderableAll(a) + UnrenderableAll(b)
  {
    if a != [] {
      assert (a + b)[1..] == a[1..] + b;
      KeptAppend(a[1..], b);
    } else {
      assert a + b == b;
    }
  }

  /**
   * Sanitising every child and filtering out `undefined` keeps exactly the
   * children that have a role, sanitised, in their original order.
   */
  lemma {:induction false} SurvivorsAreKept(cs: seq<Node>)
    ensures Survivors(SanitizeEach(cs)) == Kept(cs)
  {
    if cs != [] {
      assert SanitizeEach(cs)[1..] == SanitizeEach(cs[1..]);
      SurvivorsAreKept(cs[1..]);
    }
  }

  /**
   * A container comes back as itself without `_ref`, with its role, `multi`
   * flag and other fields untouched and its `components` replaced by the
   * children that have a role, sanitised, in order: never more children than
   * before, and fewer when some child has no role. An empty list stays an
   * empty list.
   */
  lemma ContainerKeepsRoledChildren(n: Node)
    requires HasRole(n) && n.components.Present?
    ensures var r := Sanitize(n).clean.value;
      && r.ref.None? && r.role == n.role && r.multi == n.multi && r.extra == n.extra - {"_ref"}
      && r.components == Present(Kept(n.components.nodes))
      && |Kept(n.components.nodes)| + |Roleless(n.components.nodes)| == |n.components.nodes|
      && (Roleless(n.components.nodes) != [] ==> |Kept(n.components.nodes)| < |n.components.nodes|)
      && (n.components.nodes == [] ==> r.components == Present([]))
  {
    SurvivorsAreKept(n.components.nodes);
    KeptCount(n.components.nodes);
  }

  /**
   * The warnings of one call are exactly one per unrenderable node reached
   * through role-bearing ancestors, in depth-first order; nodes below a
   * dropped node are never visited.
   */
  lemma {:induction false} LogIsOneWarningPerUnrenderable(n: Node)
    ensures Sanitize(n).log == SkipWarnings(Unrenderable(n))
  {
    if HasRole(n) && n.components.Present? {
      LogsAreWarnings(n.components.nodes);
    }
  }

  /** `LogIsOneWarningPerUnrenderable`, for every node of a list. */
  lemma {:induction false} LogsAreWarnings(cs: seq<Node>)
    ensures Logs(SanitizeEach(cs)) == SkipWarnings(UnrenderableAll(cs))
  {
    if cs != [] {
      assert SanitizeEach(cs)[1..] == SanitizeEach(cs[1..]);
      LogIsOneWarningPerUnrenderable(cs[0]);
      LogsAreWarnings(cs[1..]);
      SkipWarningsAppend(Unrenderable(cs[0]), UnrenderableAll(cs[1..]));
    }
  }

  lemma {:induction false} SkipWarningsAppend(a: seq<Node>, b: seq<Node>)
    ensures SkipWarnings(a + b) == SkipWarnings(a) + SkipWarnings(b)
  {
    if a != [] {
      assert (a + b)[1..] == a[1..] + b;
      SkipWarningsAppend(a[1..], b);
    } else {
      assert a + b == b;
    }
  }

  /** Every kept component has a role and no `_ref`, at every level. */
  lemma {:induction false} KeptAreClean(cs: seq<Node>)
    ensures forall j :: 0 <= j < |Kept(cs)| ==> IsClean(Kept(cs)[j])
  {
    if cs != [] {
      KeptAreClean(cs[1..]);
    }
  }

  /** `Kept` and `UnrenderableAll` of a one-item list. */
  lemma Singleton(c: Node)
    ensures Kept([c]) == (if HasRole(c) then [Sanitize(c).clean.value] else [])
    ensures UnrenderableAll([c]) == Unrenderable(c)
  {
    assert [c][1..] == [];
  }

  /** What one more top-level item adds to the kept components and to the log. */
  lemma PrefixStep(cs: seq<Node>, i: nat)
    requires i < |cs|
    ensures Kept(cs[..i + 1]) ==
              Kept(cs[..i]) + (if HasRole(cs[i]) then [Sanitize(cs[i]).clean.value] else [])
    ensures SkipWarnings(UnrenderableAll(cs[..i + 1])) ==
              SkipWarnings(UnrenderableAll(cs[..i])) + Sanitize(cs[i]).log
  {
    assert cs[..i + 1] == cs[..i] + [cs[i]];
    KeptAppend(cs[..i], [cs[i]]);
    Singleton(cs[i]);
    LogIsOneWarningPerUnrenderable(cs[i]);
    SkipWarningsAppend(UnrenderableAll(cs[..i]), Unrenderable(cs[i]));
    assert UnrenderableAll(cs[..i + 1]) == UnrenderableAll(cs[..i]) + Unrenderable(cs[i]);
    assert SkipWarnings(Unrenderable(cs[i])) == Sanitize(cs[i]).log;
  }

  /** Sanitising a component the sanitiser already let through changes nothing and logs nothing. */
  lemma {:induction false} SanitizeIdempotent(n: Node)
    requires IsClean(n)
    ensures Sanitize(n) == Sanitized(n, Some(n), [])
  {
    assert n.extra - {"_ref"} == n.extra;
    if n.components.Present? {
      KeptOfCleanIsIdentity(n.components.nodes);
      SurvivorsAreKept(n.components.nodes);
      LogsOfCleanAreEmpty(n.components.nodes);
    }
  }

  lemma {:induction false} KeptOfCleanIsIdentity(cs: seq<Node>)
    requires forall i :: 0 <= i < |cs| ==> IsClean(cs[i])
    ensures Kept(cs) == cs
  {
    if cs != [] {
      SanitizeIdempotent(cs[0]);
      KeptOfCleanIsIdentity(cs[1..]);
    }
  }

  lemma {:induction false} LogsOfCleanAreEmpty(cs: seq<Node>)
    requires forall i :: 0 <= i < |cs| ==> IsClean(cs[i])
    ensures Logs(SanitizeEach(cs)) == []
  {
    if cs != [] {
      assert SanitizeEach(cs)[1..] == SanitizeEach(cs[1..]);
      SanitizeIdempotent(cs[0]);
      LogsOfCleanAreEmpty(cs[1..]);
    }
  }
}
