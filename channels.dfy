/**
 * Plugin-message channel identifiers and the channel registrar: a set of registered
 * identifiers and the two views of it that peers see, the namespaced ("modern") one for
 * protocol 1.13 and later and the bare-name ("legacy") one for older protocols.
 */
module Channels {

  /** `ChannelIdentifier`: a namespaced key or a bare legacy name. */
  datatype ChannelId = Modern(namespace: string, path: string) | Legacy(name: string) {
    /** `id()`: the identifier's wire form. */
    function Id(): string {
      match this
      case Modern(ns, p) => ns + ":" + p
      case Legacy(name) => name
    }
  }

  /** The one legacy name the proxy maps to a chosen modern channel rather than `legacy:…`. */
  const SpecialLegacyName: string := "BungeeCord"
  const SpecialModernId: string := "bungeecord:main"
  const LegacyNamespacePrefix: string := "legacy:"

  function LowerAscii(c: char): char {
    if 'A' <= c <= 'Z' then (c as int + 32) as char else c
  }

  /** Lower-casing, for the ASCII letters. */
  function ToLowerCase(s: string): (r: string)
    ensures |r| == |s|
    ensures forall i :: 0 <= i < |s| ==> r[i] == LowerAscii(s[i])
  {
    seq(|s|, i requires 0 <= i < |s| => LowerAscii(s[i]))
  }

  /** How one identifier appears to modern peers. */
  function ModernForm(id: ChannelId): string {
    match id
    case Modern(_, _) => id.Id()
    case Legacy(name) =>
      if name == SpecialLegacyName then SpecialModernId else LegacyNamespacePrefix + ToLowerCase(name)
  }

  /** How one identifier appears to legacy peers: every id is a legal legacy name. */
  function LegacyForm(id: ChannelId): string {
    id.Id()
  }

  function ModernView(ids: set<ChannelId>): set<string> {
    set i | i in ids :: ModernForm(i)
  }

  function LegacyView(ids: set<ChannelId>): set<string> {
    set i | i in ids :: LegacyForm(i)
  }

  class ChannelRegistrar {
    var ids: set<ChannelId>

    constructor ()
      ensures ids == {}
    {
      ids := {};
    }

    /** `register(identifiers...)`: adds each identifier; one already there stays once. */
    method Register(identifiers: seq<ChannelId>)
      modifies this
      ensures ids == old(ids) + (set i | i in identifiers)
    {
      ids := ids + (set i | i in identifiers);
    }

    /** `unregister(identifiers...)`: removes each identifier; an absent one is ignored. */
    method Unregister(identifiers: seq<ChannelId>)
      modifies this
      ensures ids == old(ids) - (set i | i in identifiers)
    {
      ids := ids - (set i | i in identifiers);
    }

    /** `getModernChannelIds()`. */
    function ModernChannelIds(): set<string>
      reads this
    {
      ModernView(ids)
    }

    /** `getLegacyChannelIds()`. */
    function LegacyChannelIds(): set<string>
      reads this
    {
      LegacyView(ids)
    }
  }

  // ---- properties of the two views ----

  /**
   * Every registered identifier shows in both views: a modern id verbatim in each, a
   * legacy name verbatim in the legacy view and remapped or `legacy:`-prefixed in the
   * modern one; and nothing else shows.
   */
  lemma ViewMembership(ids: set<ChannelId>, x: string)
    ensures x in ModernView(ids) <==> exists i :: i in ids && ModernForm(i) == x
    ensures x in LegacyView(ids) <==> exists i :: i in ids && i.Id() == x
    ensures forall ns, p :: Modern(ns, p) in ids ==> ns + ":" + p in ModernView(ids) && ns + ":" + p in LegacyView(ids)
    ensures forall n :: Legacy(n) in ids ==> n in LegacyView(ids)
    ensures forall n :: Legacy(n) in ids && n != SpecialLegacyName ==> LegacyNamespacePrefix + ToLowerCase(n) in ModernView(ids)
    ensures Legacy(SpecialLegacyName) in ids ==> SpecialModernId in ModernView(ids)
  {
    forall ns, p | Modern(ns, p) in ids
      ensures ns + ":" + p in ModernView(ids) && ns + ":" + p in LegacyView(ids)
    {
      assert ModernForm(Modern(ns, p)) == ns + ":" + p;
      assert LegacyForm(Modern(ns, p)) == ns + ":" + p;
    }
    forall n | Legacy(n) in ids ensures n in LegacyView(ids) {
      assert LegacyForm(Legacy(n)) == n;
    }
    forall n | Legacy(n) in ids && n != SpecialLegacyName
      ensures LegacyNamespacePrefix + ToLowerCase(n) in ModernView(ids)
    {
      assert ModernForm(Legacy(n)) == LegacyNamespacePrefix + ToLowerCase(n);
    }
    if Legacy(SpecialLegacyName) in ids {
      assert ModernForm(Legacy(SpecialLegacyName)) == SpecialModernId;
    }
  }

  /** The special remap and the `legacy:` projection touch only legacy names in the modern view. */
  lemma ProjectionShapes(id: ChannelId)
    ensures id.Modern? ==> ModernForm(id) == LegacyForm(id) == id.Id()
    ensures id.Legacy? ==> LegacyForm(id) == id.name
    ensures id.Legacy? && id.name != SpecialLegacyName ==>
              |ModernForm(id)| == |LegacyNamespacePrefix| + |id.name| &&
              ModernForm(id)[..|LegacyNamespacePrefix|] == LegacyNamespacePrefix &&
              forall k :: |LegacyNamespacePrefix| <= k < |ModernForm(id)| ==>
                !('A' <= ModernForm(id)[k] <= 'Z')
  {
  }

  /**
   * Unregistering one identifier removes its own contribution and nothing that another
   * registered identifier still contributes, in both views.
   */
  lemma UnregisterContribution(ids: set<ChannelId>, gone: ChannelId, x: string)
    ensures x in ModernView(ids - {gone}) <==>
              x in ModernView(ids) && (x != ModernForm(gone) || exists j :: j in ids && j != gone && ModernForm(j) == x)
    ensures x in LegacyView(ids - {gone}) <==>
              x in LegacyView(ids) && (x != LegacyForm(gone) || exists j :: j in ids && j != gone && LegacyForm(j) == x)
  {
    if x in ModernView(ids) && x != ModernForm(gone) {
      var j :| j in ids && ModernForm(j) == x;
      assert j in ids - {gone};
    }
    if x in LegacyView(ids) && x != LegacyForm(gone) {
      var j :| j in ids && LegacyForm(j) == x;
      assert j in ids - {gone};
    }
  }

  /** Registering a new identifier and unregistering it again leaves both views as they were. */
  lemma RegisterUnregisterRestores(ids: set<ChannelId>, id: ChannelId)
    requires id !in ids
    ensures ModernView((ids + {id}) - {id}) == ModernView(ids)
    ensures LegacyView((ids + {id}) - {id}) == LegacyView(ids)
  {
    assert (ids + {id}) - {id} == ids;
  }

  /** Both views are sets: they never have more entries than there are registered identifiers. */
  lemma {:induction false} ViewSizes(ids: set<ChannelId>)
    ensures |ModernView(ids)| <= |ids|
    ensures |LegacyView(ids)| <= |ids|
  {
    if ids != {} {
      var i :| i in ids;
      var rest := ids - {i};
      ViewSizes(rest);
      assert ModernView(ids) == ModernView(rest) + {ModernForm(i)};
      assert LegacyView(ids) == LegacyView(rest) + {LegacyForm(i)};
      assert |ids| == |rest| + 1;
    } else {
      assert ModernView(ids) == {};
      assert LegacyView(ids) == {};
    }
  }

  // ---- the registrar's test cases ----

  const TestModern := Modern("velocity", "test")
  const TestLegacy := Legacy("VelocityTest")
  const SpecialModern := Modern("bungeecord", "main")
  const SpecialLegacy := Legacy("BungeeCord")

  lemma TestModernId()
    ensures TestModern.Id() == "velocity:test"
  {
  }

  lemma LowerVelocityTest()
    ensures ToLowerCase("VelocityTest") == "velocitytest"
  {
    var lower := ToLowerCase("VelocityTest");
    forall i | 0 <= i < 12 ensures lower[i] == "velocitytest"[i] {
    }
  }

  lemma TestLegacyModernForm()
    ensures ModernForm(TestLegacy) == "legacy:velocitytest"
  {
    assert |TestLegacy.name| != |SpecialLegacyName|;
    LowerVelocityTest();
  }

  lemma SpecialIds()
    ensures SpecialModern.Id() == "bungeecord:main"
    ensures ModernForm(SpecialLegacy) == "bungeecord:main"
  {
  }

  /** `register` test: modern id verbatim plus the lower-cased, prefixed legacy name; both verbatim in the legacy view. */
  method RegisterScenario() returns (modern: set<string>, legacy: set<string>)
    ensures modern == {"velocity:test", "legacy:velocitytest"}
    ensures legacy == {"VelocityTest", "velocity:test"}
  {
    var registrar := new ChannelRegistrar();
    registrar.Register([TestModern, TestLegacy]);
    assert registrar.ids == {TestModern, TestLegacy};
    TestModernId();
    TestLegacyModernForm();
    modern := registrar.ModernChannelIds();
    legacy := registrar.LegacyChannelIds();
  }

  /** `registerSpecialRewrite` test: the remapped legacy name and the modern id are one element. */
  method RegisterSpecialScenario() returns (modern: set<string>, legacy: set<string>)
    ensures modern == {"bungeecord:main"}
    ensures legacy == {"bungeecord:main", "BungeeCord"}
  {
    var registrar := new ChannelRegistrar();
    registrar.Register([SpecialLegacy, SpecialModern]);
    assert registrar.ids == {SpecialLegacy, SpecialModern};
    SpecialIds();
    modern := registrar.ModernChannelIds();
    legacy := registrar.LegacyChannelIds();
  }

  /** `unregister` test: dropping the legacy id leaves only the modern id in both views. */
  method UnregisterScenario() returns (modern: set<string>, legacy: set<string>)
    ensures modern == {"velocity:test"}
    ensures legacy == {"velocity:test"}
  {
    var registrar := new ChannelRegistrar();
    registrar.Register([TestModern, TestLegacy]);
    registrar.Unregister([TestLegacy]);
    assert registrar.ids == {TestModern};
    TestModernId();
    modern := registrar.ModernChannelIds();
    legacy := registrar.LegacyChannelIds();
  }
}
