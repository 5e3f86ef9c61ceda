// Canonical model IDs, router catalogs, and the translation between them.
module ModelIdMapper {
  import Text

  const ROUTER_LEVEL_IDS: set<string> :=
    {"main-rr", "combo-round-robin", "combo-fast", "combo-thinking", "kr/auto"}

  const SHARED_PREFIXES: seq<string> := ["groq/", "nvidia/", "kr/", "anthropic/", "ollama/"]

  // Prefix lists per router key, in the order they were registered.
  type PrefixTable = seq<(string, seq<string>)>

  const DEFAULT_PREFIXES: PrefixTable :=
    [("9router", SHARED_PREFIXES), ("omniroute", SHARED_PREFIXES), ("kiro", [])]

  function AllPrefixes(table: PrefixTable): seq<string> {
    if table == [] then [] else table[0].1 + AllPrefixes(table[1..])
  }

  // Prefixes are tried in the order their routers were registered.
  lemma {:induction false} PrefixesJoin(a: PrefixTable, b: PrefixTable)
    ensures AllPrefixes(a + b) == AllPrefixes(a) + AllPrefixes(b)
  {
    if a == [] {
      assert a + b == b;
    } else {
      assert (a + b)[1..] == a[1..] + b && (a + b)[0] == a[0];
      PrefixesJoin(a[1..], b);
    }
  }

  function StripFirst(prefixes: seq<string>, id: string): string {
    if prefixes == [] then id
    else if prefixes[0] <= id then id[|prefixes[0]|..]
    else StripFirst(prefixes[1..], id)
  }

  // `to_canonical`: router-level IDs verbatim, otherwise one prefix removed.
  function Canonical(table: PrefixTable, id: string): string {
    if id == "" || id in ROUTER_LEVEL_IDS then id
    else StripFirst(AllPrefixes(table), id)
  }

  // First model of the catalog whose canonical form is the one asked for.
  function FirstCanonical(table: PrefixTable, catalog: seq<string>, canonical: string): (r: Text.Option<string>)
    ensures r.Some? <==> CanonicalMatch(table, catalog, canonical)
    ensures r.Some? ==> r.value in catalog && Canonical(table, r.value) == canonical
  {
    if catalog == [] then Text.None
    else if Canonical(table, catalog[0]) == canonical then Text.Some(catalog[0])
    else FirstCanonical(table, catalog[1..], canonical)
  }

  predicate CanonicalMatch(table: PrefixTable, catalog: seq<string>, canonical: string) {
    exists m :: m in catalog && Canonical(table, m) == canonical
  }

  function FirstPrefixed(prefixes: seq<string>, catalog: seq<string>, canonical: string): Text.Option<string> {
    if prefixes == [] then Text.None
    else if catalog == [] || prefixes[0] + canonical in catalog then Text.Some(prefixes[0] + canonical)
    else FirstPrefixed(prefixes[1..], catalog, canonical)
  }

  function RouterKey(name: string): string {
    Text.Lower(Text.Strip(name))
  }

  function PrefixesOf(table: PrefixTable, key: string): seq<string> {
    if table == [] then []
    else if table[0].0 == key then table[0].1
    else PrefixesOf(table[1..], key)
  }

  // `to_router_specific`, given the router's explicit map and catalog.
  function Specific(table: PrefixTable, explicit: map<string, string>, catalog: seq<string>,
                    key: string, canonical: string): string
  {
    if canonical == "" || canonical in ROUTER_LEVEL_IDS then canonical
    else if canonical in explicit then explicit[canonical]
    else if canonical in catalog then canonical
    else
      var first := FirstCanonical(table, catalog, canonical);
      if first.Some? then first.value
      else
        var prefixed := FirstPrefixed(PrefixesOf(table, key), catalog, canonical);
        if prefixed.Some? then prefixed.value else canonical
  }

  function SetPrefixes(table: PrefixTable, key: string, prefixes: seq<string>): PrefixTable {
    if table == [] then [(key, prefixes)]
    else if table[0].0 == key then [(key, prefixes)] + table[1..]
    else [table[0]] + SetPrefixes(table[1..], key, prefixes)
  }

  // The non-empty prefixes, each ending in a slash.
  function WithSlash(prefixes: seq<string>): (r: seq<string>)
    ensures forall p :: p in r <==> exists q :: q in prefixes && q != "" && p == Slashed(q)
  {
    if prefixes == [] then []
    else
      assert forall q :: q in prefixes <==> q == prefixes[0] || q in prefixes[1..];
      (if prefixes[0] == "" then [] else [Slashed(prefixes[0])]) + WithSlash(prefixes[1..])
  }

  // They stay in order.
  lemma {:induction false} WithSlashJoins(a: seq<string>, b: seq<string>)
    ensures WithSlash(a + b) == WithSlash(a) + WithSlash(b)
  {
    if a == [] {
      assert a + b == b;
    } else {
      assert (a + b)[1..] == a[1..] + b;
      WithSlashJoins(a[1..], b);
    }
  }

  function RouterKeys(table: PrefixTable): seq<string> {
    if table == [] then [] else [table[0].0] + RouterKeys(table[1..])
  }

  function Slashed(p: string): string {
    if p != "" && p[|p| - 1] == '/' then p else p + "/"
  }

  // Registering sets that router's prefixes, leaves every other router's alone, and
  // keeps the order in which routers were first registered.
  lemma {:induction false} RegisteredPrefixes(table: PrefixTable, key: string, prefixes: seq<string>, q: string)
    ensures PrefixesOf(SetPrefixes(table, key, prefixes), q) == if q == key then prefixes else PrefixesOf(table, q)
    ensures RouterKeys(SetPrefixes(table, key, prefixes))
         == if key in RouterKeys(table) then RouterKeys(table) else RouterKeys(table) + [key]
  {
    if table == [] {
    } else if table[0].0 == key {
      assert ([(key, prefixes)] + table[1..])[1..] == table[1..];
    } else {
      RegisteredPrefixes(table[1..], key, prefixes, q);
      assert ([table[0]] + SetPrefixes(table[1..], key, prefixes))[1..] == SetPrefixes(table[1..], key, prefixes);
    }
  }

  class ModelIdMapper {
    var prefixes: PrefixTable
    var catalogs: map<string, seq<string>>
    var explicit: map<string, map<string, string>>

    // No configuration: the way the meta-router builds its mapper.
    constructor ()
      ensures prefixes == DEFAULT_PREFIXES && catalogs == map[] && explicit == map[]
    {
      prefixes := DEFAULT_PREFIXES;
      catalogs := map[];
      explicit := map[];
    }

    method RegisterMapping(router: string, ps: seq<string>)
      modifies this`prefixes
      ensures prefixes == SetPrefixes(old(prefixes), RouterKey(router), WithSlash(ps))
      ensures forall q :: PrefixesOf(prefixes, q)
                       == if q == RouterKey(router) then WithSlash(ps) else PrefixesOf(old(prefixes), q)
      ensures RouterKeys(prefixes) == if RouterKey(router) in RouterKeys(old(prefixes)) then RouterKeys(old(prefixes))
                                      else RouterKeys(old(prefixes)) + [RouterKey(router)]
    {
      forall q
        ensures PrefixesOf(SetPrefixes(prefixes, RouterKey(router), WithSlash(ps)), q)
             == if q == RouterKey(router) then WithSlash(ps) else PrefixesOf(prefixes, q)
      {
        RegisteredPrefixes(prefixes, RouterKey(router), WithSlash(ps), q);
      }
      RegisteredPrefixes(prefixes, RouterKey(router), WithSlash(ps), "");
      prefixes := SetPrefixes(prefixes, RouterKey(router), WithSlash(ps));
    }

    method RegisterCatalog(router: string, models: seq<string>)
      modifies this`catalogs
      ensures catalogs == old(catalogs)[RouterKey(router) := models]
    {
      catalogs := catalogs[RouterKey(router) := models];
    }

    function ToCanonical(id: string): string
      reads this`prefixes
    {
      Canonical(prefixes, id)
    }

    function ToRouterSpecific(canonical: string, router: string): string
      reads this
    {
      var key := RouterKey(router);
      Specific(prefixes, if key in explicit then explicit[key] else map[],
               if key in catalogs then catalogs[key] else [], key, canonical)
    }
  }

  // ---- Translation soundness ----------------------------------------------

  // A catalog that matches the canonical ID translates it to one of its own
  // IDs, except for the two kinds of ID that are passed through verbatim: the
  // empty one and the router-level ones.  Those land in the catalog exactly
  // when they are listed there themselves.
  lemma {:induction false} TranslationLandsInCatalog(table: PrefixTable, catalog: seq<string>, key: string,
                                                     canonical: string)
    requires CanonicalMatch(table, catalog, canonical)
    ensures Specific(table, map[], catalog, key, canonical) in catalog
            <==> (canonical != "" && canonical !in ROUTER_LEVEL_IDS) || canonical in catalog
  {
  }

  // What comes out still names the same model: it is the canonical ID itself
  // or one of its router-specific forms.
  lemma {:induction false} TranslationKeepsModel(table: PrefixTable, catalog: seq<string>, key: string,
                                                 canonical: string)
    requires CanonicalMatch(table, catalog, canonical)
    ensures var id := Specific(table, map[], catalog, key, canonical);
            id == canonical || Canonical(table, id) == canonical
  {
  }

  // Entry i is the first of the catalog that stands for the model.
  ghost predicate FirstMatch(table: PrefixTable, catalog: seq<string>, canonical: string, i: nat) {
    && i < |catalog| && Canonical(table, catalog[i]) == canonical
    && forall j :: 0 <= j < i ==> Canonical(table, catalog[j]) != canonical
  }

  // The catalog, when there is one, lists the ID with this prefix.
  predicate Takes(catalog: seq<string>, prefix: string, canonical: string) {
    catalog == [] || prefix + canonical in catalog
  }

  ghost predicate FirstTaken(prefixes: seq<string>, catalog: seq<string>, canonical: string, i: nat) {
    && i < |prefixes| && Takes(catalog, prefixes[i], canonical)
    && forall j :: 0 <= j < i ==> !Takes(catalog, prefixes[j], canonical)
  }

  // What wins: an explicit mapping, then the ID itself if it is listed, then the first
  // catalog entry that stands for the model, then the router's first prefix under which
  // the catalog lists it, and else the ID as it is.
  lemma {:induction false} TranslationOrder(table: PrefixTable, explicit: map<string, string>, catalog: seq<string>,
                                            key: string, canonical: string)
    requires canonical != "" && canonical !in ROUTER_LEVEL_IDS
    ensures var id, own := Specific(table, explicit, catalog, key, canonical), PrefixesOf(table, key);
            if canonical in explicit then id == explicit[canonical]
            else if canonical in catalog then id == canonical
            else if CanonicalMatch(table, catalog, canonical) then
              forall i: nat :: FirstMatch(table, catalog, canonical, i) ==> id == catalog[i]
            else
              && (forall i: nat :: FirstTaken(own, catalog, canonical, i) ==> id == own[i] + canonical)
              && ((forall p :: p in own ==> !Takes(catalog, p, canonical)) ==> id == canonical)
  {
    FirstCanonicalIsFirst(table, catalog, canonical);
    FirstPrefixedIsFirst(PrefixesOf(table, key), catalog, canonical);
  }

  lemma {:induction false} FirstCanonicalIsFirst(table: PrefixTable, catalog: seq<string>, canonical: string)
    ensures forall i: nat :: FirstMatch(table, catalog, canonical, i) ==>
              FirstCanonical(table, catalog, canonical) == Text.Some(catalog[i])
  {
    if catalog == [] {
    } else {
      FirstCanonicalIsFirst(table, catalog[1..], canonical);
      forall i: nat | FirstMatch(table, catalog, canonical, i)
        ensures FirstCanonical(table, catalog, canonical) == Text.Some(catalog[i])
      {
        if i > 0 {
          assert forall j :: 0 <= j < i - 1 ==> catalog[1..][j] == catalog[j + 1];
          assert FirstMatch(table, catalog[1..], canonical, i - 1);
        }
      }
    }
  }

  lemma {:induction false} FirstPrefixedIsFirst(prefixes: seq<string>, catalog: seq<string>, canonical: string)
    ensures forall i: nat :: FirstTaken(prefixes, catalog, canonical, i) ==>
              FirstPrefixed(prefixes, catalog, canonical) == Text.Some(prefixes[i] + canonical)
    ensures (forall p :: p in prefixes ==> !Takes(catalog, p, canonical)) ==>
              FirstPrefixed(prefixes, catalog, canonical) == Text.None
  {
    if prefixes == [] {
    } else {
      FirstPrefixedIsFirst(prefixes[1..], catalog, canonical);
      assert prefixes[0] in prefixes && forall p :: p in prefixes[1..] ==> p in prefixes;
      forall i: nat | FirstTaken(prefixes, catalog, canonical, i)
        ensures FirstPrefixed(prefixes, catalog, canonical) == Text.Some(prefixes[i] + canonical)
      {
        if i > 0 {
          assert forall j :: 0 <= j < i - 1 ==> prefixes[1..][j] == prefixes[j + 1];
          assert FirstTaken(prefixes[1..], catalog, canonical, i - 1);
        }
      }
    }
  }

  // "groq/" alone canonicalises to the empty ID and is then sent on as "",
  // which the catalog does not list.
  lemma {:induction false} EmptyCanonicalEscapes()
    ensures CanonicalMatch(DEFAULT_PREFIXES, ["groq/"], Canonical(DEFAULT_PREFIXES, "groq/"))
    ensures var canonical := Canonical(DEFAULT_PREFIXES, "groq/");
            Specific(DEFAULT_PREFIXES, map[], ["groq/"], "omniroute", canonical) !in ["groq/"]
  {
    DefaultPrefixList();
    assert "groq/"[5..] == "";
    assert Canonical(DEFAULT_PREFIXES, "groq/") == "";
    assert "groq/" in ["groq/"];
  }

  // ---- The default prefix table -------------------------------------------

  lemma {:induction false} DefaultPrefixList()
    ensures AllPrefixes(DEFAULT_PREFIXES) == SHARED_PREFIXES + SHARED_PREFIXES
  {
    assert AllPrefixes(DEFAULT_PREFIXES[1..][1..][1..]) == [];
    assert AllPrefixes(DEFAULT_PREFIXES[1..][1..]) == [];
    assert AllPrefixes(DEFAULT_PREFIXES[1..]) == SHARED_PREFIXES;
  }

  // Prefixes that do not match are skipped.
  lemma {:induction false} StripSkips(prefixes: seq<string>, id: string, k: nat)
    requires k <= |prefixes|
    requires forall i :: 0 <= i < k ==> !(prefixes[i] <= id)
    ensures StripFirst(prefixes, id) == StripFirst(prefixes[k..], id)
  {
    if k > 0 {
      StripSkips(prefixes[1..], id, k - 1);
      assert prefixes[1..][k - 1..] == prefixes[k..];
    } else {
      assert prefixes[0..] == prefixes;
    }
  }

  // What a strip does: nothing, or the removal of one of the prefixes.
  lemma {:induction false} StripCases(prefixes: seq<string>, id: string)
    ensures StripFirst(prefixes, id) == id
            || exists p :: p in prefixes && p <= id && StripFirst(prefixes, id) == id[|p|..]
  {
    if prefixes != [] && !(prefixes[0] <= id) {
      StripCases(prefixes[1..], id);
    } else if prefixes != [] {
      assert prefixes[0] in prefixes;
    }
  }

  // A default prefix is a slash-free name and a slash.
  lemma {:induction false} PrefixShape(p: string)
    requires p in SHARED_PREFIXES
    ensures |p| >= 2 && p[|p| - 1] == '/' && '/' !in p[..|p| - 1]
  {
    if p == "groq/" {
      assert p[..4] == "groq";
    } else if p == "nvidia/" {
      assert p[..6] == "nvidia";
    } else if p == "kr/" {
      assert p[..2] == "kr";
    } else if p == "anthropic/" {
      assert p[..9] == "anthropic";
    } else {
      assert p == "ollama/" && p[..6] == "ollama";
    }
  }

  // At most one default prefix starts an ID: the one before its first slash.
  lemma {:induction false} OnePrefix(p: string, q: string, id: string)
    requires p in SHARED_PREFIXES && q in SHARED_PREFIXES && p <= id && q <= id
    ensures p == q
  {
    PrefixShape(p);
    PrefixShape(q);
    SlashAfter(p, id);
    SlashAfter(q, id);
    assert p == id[..|p|] && q == id[..|q|];
  }

  lemma {:induction false} SlashAfter(p: string, id: string)
    requires |p| >= 1 && p[|p| - 1] == '/' && '/' !in p[..|p| - 1] && p <= id
    ensures Text.SlashIndex(id) == |p| - 1
  {
    assert id[|p| - 1] == '/' && id[..|p| - 1] == p[..|p| - 1];
    Text.SlashIndexAt(id, |p| - 1);
  }

  predicate Prefixed(id: string) {
    exists p :: p in SHARED_PREFIXES && p <= id
  }

  // Canonicalising takes off the one default prefix of an ID, for every ID that is not
  // router-level.
  lemma {:induction false} CanonicalStripsOne(p: string, rest: string)
    requires p in SHARED_PREFIXES && p + rest !in ROUTER_LEVEL_IDS
    ensures Canonical(DEFAULT_PREFIXES, p + rest) == rest
  {
    var id := p + rest;
    PrefixShape(p);
    DefaultPrefixList();
    assert p <= id && id[|p|..] == rest;
    StripsOnly(SHARED_PREFIXES + SHARED_PREFIXES, id, p);
  }

  lemma {:induction false} StripsOnly(prefixes: seq<string>, id: string, p: string)
    requires p in prefixes && p in SHARED_PREFIXES && p <= id
    requires forall q :: q in prefixes ==> q in SHARED_PREFIXES
    ensures StripFirst(prefixes, id) == id[|p|..]
  {
    if prefixes[0] <= id {
      OnePrefix(prefixes[0], p, id);
    } else {
      StripsOnly(prefixes[1..], id, p);
    }
  }

  // An ID is left alone exactly when it is empty, router-level or without a default prefix.
  lemma {:induction false} CanonicalFixedIff(id: string)
    ensures Canonical(DEFAULT_PREFIXES, id) == id <==> id == "" || id in ROUTER_LEVEL_IDS || !Prefixed(id)
  {
    DefaultPrefixList();
    if Prefixed(id) {
      var p :| p in SHARED_PREFIXES && p <= id;
      PrefixShape(p);
      StripsOnly(SHARED_PREFIXES + SHARED_PREFIXES, id, p);
    } else {
      StripCases(SHARED_PREFIXES + SHARED_PREFIXES, id);
    }
  }

  // Nested prefixes lose one layer per call: canonicalising a prefixed ID twice is
  // canonicalising it once exactly when nothing is left to take off the rest.
  lemma {:induction false} CanonicalTwiceIff(p: string, rest: string)
    requires p in SHARED_PREFIXES && p + rest !in ROUTER_LEVEL_IDS
    ensures var once := Canonical(DEFAULT_PREFIXES, p + rest);
            Canonical(DEFAULT_PREFIXES, once) == once <==> rest == "" || rest in ROUTER_LEVEL_IDS || !Prefixed(rest)
  {
    CanonicalStripsOne(p, rest);
    CanonicalFixedIff(rest);
  }

  // So `groq/kr/x` is `kr/x` after one call and `x` after two.
  lemma {:induction false} CanonicalNotIdempotent()
    ensures var once := Canonical(DEFAULT_PREFIXES, "groq/kr/x");
            once == "kr/x" && Canonical(DEFAULT_PREFIXES, once) == "x"
  {
    assert "groq/kr/x" == "groq/" + "kr/x" && "kr/x" == "kr/" + "x";
    CanonicalStripsOne("groq/", "kr/x");
    CanonicalStripsOne("kr/", "x");
  }

  // A `kr/...` ID loses exactly that prefix.
  lemma {:induction false} KiroCanonical(bare: string)
    requires "kr/" + bare !in ROUTER_LEVEL_IDS
    ensures Canonical(DEFAULT_PREFIXES, "kr/" + bare) == bare
  {
    CanonicalStripsOne("kr/", bare);
  }
}
