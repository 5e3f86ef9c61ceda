// Which outgoing proxy each provider connection gets.
module ProxyManager {
  import opened Sequences
  import opened Text

  // `proxy` is the connection's current proxy URL, "" when it has none.
  datatype Conn = Conn(id: string, provider: string, proxy: string)

  predicate Proxied(c: Conn) {
    Strip(c.proxy) != ""
  }

  // A connection has a proxy exactly when its URL is not blank.
  lemma {:induction false} ProxiedIff(c: Conn)
    ensures Proxied(c) <==> !Blank(c.proxy)
  {
    StripsToNothing(c.proxy);
  }

  type Assignments = map<string, string>

  // ---- Grouping -------------------------------------------------------------------

  function Of(conns: seq<Conn>, p: string): seq<Conn> {
    if conns == [] then []
    else Of(conns[..|conns| - 1], p) + (if conns[|conns| - 1].provider == p then [conns[|conns| - 1]] else [])
  }

  lemma {:induction false} OfMembers(conns: seq<Conn>, p: string)
    ensures forall c :: c in Of(conns, p) <==> c in conns && c.provider == p
  {
    if conns == [] {
    } else {
      OfMembers(conns[..|conns| - 1], p);
      assert forall c :: c in conns <==> c in conns[..|conns| - 1] || c == conns[|conns| - 1];
    }
  }

  lemma {:induction false} OfSnoc(conns: seq<Conn>, c: Conn, p: string)
    ensures Of(conns + [c], p) == if p == c.provider then Of(conns, p) + [c] else Of(conns, p)
  {
    assert (conns + [c])[..|conns|] == conns;
    assert Of(conns, p) + [] == Of(conns, p);
  }

  // Providers in order of first appearance.
  function FirstSeen(conns: seq<Conn>): seq<string> {
    if conns == [] then []
    else
      var front, last := conns[..|conns| - 1], conns[|conns| - 1];
      var seen := FirstSeen(front);
      if last.provider in seen then seen else seen + [last.provider]
  }

  lemma {:induction false} FirstSeenSpec(conns: seq<Conn>)
    ensures Distinct(FirstSeen(conns))
    ensures forall p :: p in FirstSeen(conns) <==> exists c :: c in conns && c.provider == p
  {
    if conns == [] {
    } else {
      FirstSeenSpec(conns[..|conns| - 1]);
      assert forall c :: c in conns <==> c in conns[..|conns| - 1] || c == conns[|conns| - 1];
    }
  }

  lemma {:induction false} FirstSeenSnoc(conns: seq<Conn>, c: Conn)
    ensures FirstSeen(conns + [c])
         == if c.provider in FirstSeen(conns) then FirstSeen(conns) else FirstSeen(conns) + [c.provider]
  {
    assert (conns + [c])[..|conns|] == conns;
  }

  ghost predicate Grouped(conns: seq<Conn>, order: seq<string>, groups: map<string, seq<Conn>>) {
    && order == FirstSeen(conns)
    && (forall p :: p in order <==> p in groups)
    && (forall p :: p in order ==> groups[p] == Of(conns, p))
  }

  method GroupByProvider(conns: seq<Conn>) returns (order: seq<string>, groups: map<string, seq<Conn>>)
    ensures Grouped(conns, order, groups)
  {
    order, groups := [], map[];
    ghost var seen := [];
    for i := 0 to |conns|
      invariant seen == conns[..i] && Grouped(seen, order, groups)
    {
      var c := conns[i];
      ghost var order0, groups0 := order, groups;
      if c.provider !in groups {
        order := order + [c.provider];
        groups := groups[c.provider := []];
      }
      groups := groups[c.provider := groups[c.provider] + [c]];
      GroupStep(seen, c, order0, groups0, order, groups);
      seen := seen + [c];
    }
    assert conns[..|conns|] == conns;
  }

  lemma {:induction false} GroupStep(seen: seq<Conn>, c: Conn, order: seq<string>, groups: map<string, seq<Conn>>,
                                     order': seq<string>, groups': map<string, seq<Conn>>)
    requires Grouped(seen, order, groups)
    requires order' == if c.provider in groups then order else order + [c.provider]
    requires groups' == groups[c.provider := (if c.provider in groups then groups[c.provider] else []) + [c]]
    ensures Grouped(seen + [c], order', groups')
  {
    FirstSeenSnoc(seen, c);
    if c.provider !in groups {
      NoneYet(seen, c.provider);
    }
    forall p | p in order' ensures groups'[p] == Of(seen + [c], p) {
      OfSnoc(seen, c, p);
    }
  }

  lemma {:induction false} NoneYet(conns: seq<Conn>, p: string)
    requires p !in FirstSeen(conns)
    ensures Of(conns, p) == []
  {
    if conns == [] {
    } else {
      NoneYet(conns[..|conns| - 1], p);
    }
  }

  // The groups one after the other.
  function Flat(order: seq<string>, conns: seq<Conn>): seq<Conn> {
    if order == [] then [] else Flat(order[..|order| - 1], conns) + Of(conns, order[|order| - 1])
  }

  function Flattened(conns: seq<Conn>): seq<Conn> {
    Flat(FirstSeen(conns), conns)
  }

  predicate DistinctIds(conns: seq<Conn>) {
    forall i, j :: 0 <= i < j < |conns| ==> conns[i].id != conns[j].id
  }

  lemma {:induction false} FlatMembers(order: seq<string>, conns: seq<Conn>)
    ensures forall c :: c in Flat(order, conns) <==> c in conns && c.provider in order
  {
    if order == [] {
    } else {
      FlatMembers(order[..|order| - 1], conns);
      OfMembers(conns, order[|order| - 1]);
      assert forall p :: p in order <==> p in order[..|order| - 1] || p == order[|order| - 1];
    }
  }

  lemma {:induction false} SameIdSameConn(conns: seq<Conn>, c: Conn, d: Conn)
    requires DistinctIds(conns) && c in conns && d in conns && c.id == d.id
    ensures c == d
  {
    var i :| 0 <= i < |conns| && conns[i] == c;
    var j :| 0 <= j < |conns| && conns[j] == d;
  }

  lemma {:induction false} OfDistinct(conns: seq<Conn>, p: string)
    requires DistinctIds(conns)
    ensures DistinctIds(Of(conns, p))
  {
    if conns == [] {
    } else {
      var front, last := conns[..|conns| - 1], conns[|conns| - 1];
      OfDistinct(front, p);
      OfMembers(front, p);
      forall c | c in Of(front, p) ensures c.id != last.id {
        var i :| 0 <= i < |front| && front[i] == c;
        assert conns[i] == c;
      }
      JoinDistinct(Of(front, p), if last.provider == p then [last] else []);
    }
  }

  lemma {:induction false} JoinDistinct(a: seq<Conn>, b: seq<Conn>)
    requires DistinctIds(a) && DistinctIds(b)
    requires forall c, d :: c in a && d in b ==> c.id != d.id
    ensures DistinctIds(a + b)
  {
    forall i, j | 0 <= i < j < |a + b| ensures (a + b)[i].id != (a + b)[j].id {
      if i < |a| <= j {
        assert a[i] in a && b[j - |a|] in b;
      }
    }
  }

  lemma {:induction false} LastIsNew(order: seq<string>)
    requires Distinct(order) && order != []
    ensures order[|order| - 1] !in order[..|order| - 1]
  {
  }

  lemma {:induction false} FlatDistinct(order: seq<string>, conns: seq<Conn>)
    requires DistinctIds(conns) && Distinct(order)
    ensures DistinctIds(Flat(order, conns))
  {
    if order == [] {
    } else {
      var front, last := order[..|order| - 1], order[|order| - 1];
      FlatDistinct(front, conns);
      OfDistinct(conns, last);
      OfMembers(conns, last);
      FlatMembers(front, conns);
      forall c, d | c in Flat(front, conns) && d in Of(conns, last) ensures c.id != d.id {
        LastIsNew(order);
        if c.id == d.id {
          SameIdSameConn(conns, c, d);
        }
      }
      JoinDistinct(Flat(front, conns), Of(conns, last));
    }
  }

  lemma {:induction false} FlattenedMembers(conns: seq<Conn>)
    ensures forall c :: c in Flattened(conns) <==> c in conns
  {
    FlatMembers(FirstSeen(conns), conns);
    FirstSeenSpec(conns);
  }

  lemma {:induction false} FlattenedDistinct(conns: seq<Conn>)
    requires DistinctIds(conns)
    ensures DistinctIds(Flattened(conns))
  {
    FirstSeenSpec(conns);
    FlatDistinct(FirstSeen(conns), conns);
  }

  lemma {:induction false} ProviderSeen(conns: seq<Conn>, c: Conn)
    requires c in conns
    ensures c.provider in FirstSeen(conns)
  {
    FirstSeenSpec(conns);
  }

  // ---- Full assignment ---------------------------------------------------------------

  // The k-th connection, counting through the groups, gets proxy k mod P.
  function Dealt(flat: seq<Conn>, pool: seq<string>): Assignments
    requires pool != []
  {
    if flat == [] then map[]
    else Dealt(flat[..|flat| - 1], pool)[flat[|flat| - 1].id := Slot(pool, |flat| - 1)]
  }

  lemma {:induction false} ModShift(a: nat, i: nat, p: nat)
    requires p > 0
    ensures (a % p + i) % p == (a + i) % p
    decreases a
  {
    if a >= p {
      ModShift(a - p, i, p);
      ModLess(a, p);
      ModLess(a + i, p);
    } else {
      ModSmall(a, p);
    }
  }

  lemma {:induction false} ModLess(a: nat, p: nat)
    requires a >= p > 0
    ensures a % p == (a - p) % p && a / p == (a - p) / p + 1
  {
    DivModUnique(a, p, (a - p) / p + 1, (a - p) % p);
  }

  lemma {:induction false} ModSmall(a: nat, p: nat)
    requires a < p
    ensures a % p == a && a / p == 0
  {
    DivModUnique(a, p, 0, a);
  }

  lemma {:induction false} DivModUnique(a: nat, p: nat, q: nat, r: nat)
    requires p > 0 && a == q * p + r && r < p
    ensures a / p == q && a % p == r
  {
    assert a == (a / p) * p + a % p;
    var d := a / p - q;
    assert d * p == r - a % p;
    SmallMultiple(d, p);
  }

  // A multiple of p strictly between -p and p is zero.
  lemma {:induction false} SmallMultiple(d: int, p: int)
    requires p > 0
    ensures -p < d * p < p ==> d == 0
  {
    if d >= 1 {
      assert d * p == p + (d - 1) * p;
      assert (d - 1) * p >= 0;
    } else if d <= -1 {
      assert d * p == -p + (d + 1) * p;
      assert (d + 1) * p <= 0;
    }
  }

  // The proxy at a position, counting round the pool.
  function Slot(pool: seq<string>, k: nat): string
    requires pool != []
  {
    pool[k % |pool|]
  }

  lemma {:induction false} SlotShift(pool: seq<string>, a: nat, i: nat)
    requires pool != []
    ensures Slot(pool, a % |pool| + i) == Slot(pool, a + i)
  {
    ModShift(a, i, |pool|);
  }

  method ComputeAssignments(conns: seq<Conn>, pool: seq<string>) returns (asg: Assignments)
    ensures pool == [] || conns == [] ==> asg == map[]
    ensures pool != [] && conns != [] ==> asg == Dealt(Flattened(conns), pool)
  {
    asg := map[];
    if pool == [] || conns == [] {
      return;
    }
    var order, groups := GroupByProvider(conns);
    var poolIdx := 0;
    assert order[..0] == [];
    for g := 0 to |order|
      invariant poolIdx == |Flat(order[..g], conns)|
      invariant asg == Dealt(Flat(order[..g], conns), pool)
    {
      var mine := groups[order[g]];
      ghost var before := Flat(order[..g], conns);
      FlatGrows(order, conns, g);
      asg := DealGroup(asg, before, mine, pool, poolIdx % |pool|);
      poolIdx := poolIdx + |mine|;
    }
    assert order[..|order|] == order;
  }

  lemma {:induction false} FlatGrows(order: seq<string>, conns: seq<Conn>, g: nat)
    requires g < |order|
    ensures Flat(order[..g + 1], conns) == Flat(order[..g], conns) + Of(conns, order[g])
  {
    assert order[..g + 1][..g] == order[..g];
  }

  lemma {:induction false} TakeMore(before: seq<Conn>, mine: seq<Conn>, i: nat)
    requires i < |mine|
    ensures before + mine[..i + 1] == before + mine[..i] + [mine[i]]
  {
  }

  lemma {:induction false} DealStep(flat: seq<Conn>, c: Conn, pool: seq<string>)
    requires pool != []
    ensures Dealt(flat + [c], pool) == Dealt(flat, pool)[c.id := Slot(pool, |flat|)]
  {
    assert (flat + [c])[..|flat|] == flat;
  }

  lemma {:induction false} DealMore(before: seq<Conn>, mine: seq<Conn>, i: nat, pool: seq<string>, start: nat)
    requires pool != [] && start == |before| % |pool| && i < |mine|
    ensures Dealt(before + mine[..i + 1], pool)
         == Dealt(before + mine[..i], pool)[mine[i].id := Slot(pool, start + i)]
  {
    TakeMore(before, mine, i);
    DealStep(before + mine[..i], mine[i], pool);
    SlotShift(pool, |before|, i);
  }

  // The inner loop: one provider's connections.
  method DealGroup(asg: Assignments, ghost before: seq<Conn>, mine: seq<Conn>, pool: seq<string>, start: nat)
    returns (out: Assignments)
    requires pool != [] && asg == Dealt(before, pool) && start == |before| % |pool|
    ensures out == Dealt(before + mine, pool)
  {
    out := asg;
    assert before + mine[..0] == before;
    for i := 0 to |mine|
      invariant out == Dealt(before + mine[..i], pool)
    {
      DealMore(before, mine, i, pool, start);
      out := out[mine[i].id := Slot(pool, start + i)];
    }
    assert mine[..|mine|] == mine;
  }

  lemma {:induction false} DealtAt(flat: seq<Conn>, pool: seq<string>, k: nat)
    requires pool != [] && DistinctIds(flat) && k < |flat|
    ensures flat[k].id in Dealt(flat, pool) && Dealt(flat, pool)[flat[k].id] == Slot(pool, k)
  {
    if k < |flat| - 1 {
      DealtAt(flat[..|flat| - 1], pool, k);
    }
  }

  lemma {:induction false} DealtKeys(flat: seq<Conn>, pool: seq<string>)
    requires pool != []
    ensures forall id :: id in Dealt(flat, pool) <==> exists c :: c in flat && c.id == id
  {
    if flat == [] {
    } else {
      var front, last := flat[..|flat| - 1], flat[|flat| - 1];
      DealtKeys(front, pool);
      assert forall c :: c in flat <==> c in front || c == last;
    }
  }

  // Every connection gets a proxy, and nothing else does.
  lemma {:induction false} EveryConnectionServed(conns: seq<Conn>, pool: seq<string>)
    requires pool != []
    ensures forall id :: id in Dealt(Flattened(conns), pool) <==> exists c :: c in conns && c.id == id
  {
    DealtKeys(Flattened(conns), pool);
    FlattenedMembers(conns);
  }

  // Where a provider's group starts among all the groups.
  function Start(order: seq<string>, conns: seq<Conn>, p: string): nat {
    if order == [] then 0
    else if order[|order| - 1] == p then |Flat(order[..|order| - 1], conns)|
    else Start(order[..|order| - 1], conns, p)
  }

  lemma {:induction false} PositionIn(order: seq<string>, conns: seq<Conn>, c: Conn) returns (i: nat)
    requires c in conns && c.provider in order
    ensures i < |Flat(order, conns)| && Flat(order, conns)[i] == c
    ensures Start(order, conns, c.provider) <= i < Start(order, conns, c.provider) + |Of(conns, c.provider)|
  {
    var front, last := order[..|order| - 1], order[|order| - 1];
    if last == c.provider {
      var mine := Of(conns, last);
      OfMembers(conns, last);
      var k :| 0 <= k < |mine| && mine[k] == c;
      i := |Flat(front, conns)| + k;
    } else {
      i := PositionIn(front, conns, c);
    }
  }

  lemma {:induction false} CloseIndicesDiffer(a: nat, b: nat, p: nat)
    requires a < b < a + p
    ensures a % p != b % p
  {
    assert a == (a / p) * p + a % p && b == (b / p) * p + b % p;
    var d := b / p - a / p;
    assert b - a == d * p + (b % p - a % p);
    SmallMultiple(d, p);
  }

  lemma {:induction false} CloseSlotsDiffer(pool: seq<string>, a: nat, b: nat)
    requires pool != [] && Distinct(pool) && a != b && a < b + |pool| && b < a + |pool|
    ensures Slot(pool, a) != Slot(pool, b)
  {
    CloseIndicesDiffer(if a < b then a else b, if a < b then b else a, |pool|);
    var i, j := a % |pool|, b % |pool|;
    assert i < j || j < i;
  }

  // Accounts of one provider use distinct proxies whenever there are enough.
  lemma {:induction false} ProviderProxiesDistinct(conns: seq<Conn>, pool: seq<string>, c: Conn, d: Conn)
    requires pool != [] && Distinct(pool) && DistinctIds(conns)
    requires c in conns && d in conns && c.provider == d.provider && c.id != d.id
    requires |Of(conns, c.provider)| <= |pool|
    ensures var asg := Dealt(Flattened(conns), pool);
            c.id in asg && d.id in asg && asg[c.id] != asg[d.id]
  {
    ProviderSeen(conns, c);
    var i := PositionIn(FirstSeen(conns), conns, c);
    var j := PositionIn(FirstSeen(conns), conns, d);
    FlattenedDistinct(conns);
    CloseDealsDiffer(Flattened(conns), pool, i, j);
  }

  lemma {:induction false} CloseDealsDiffer(flat: seq<Conn>, pool: seq<string>, i: nat, j: nat)
    requires pool != [] && Distinct(pool) && DistinctIds(flat)
    requires i < |flat| && j < |flat| && i != j && i < j + |pool| && j < i + |pool|
    ensures var asg := Dealt(flat, pool);
            flat[i].id in asg && flat[j].id in asg && asg[flat[i].id] != asg[flat[j].id]
  {
    DealtAt(flat, pool, i);
    DealtAt(flat, pool, j);
    CloseSlotsDiffer(pool, i, j);
  }

  // How many connections a proxy serves.
  function Load(asg: Assignments, proxy: string): nat {
    |set id | id in asg && asg[id] == proxy|
  }

  lemma {:induction false} LoadAdd(asg: Assignments, id: string, proxy: string, q: string)
    requires id !in asg
    ensures Load(asg[id := proxy], q) == Load(asg, q) + (if q == proxy then 1 else 0)
  {
    var before := set i | i in asg && asg[i] == q;
    var asg' := asg[id := proxy];
    var after := set i | i in asg' && asg'[i] == q;
    if q == proxy {
      assert after == before + {id};
    } else {
      assert after == before;
    }
  }

  lemma {:induction false} NoLoad(asg: Assignments, q: string)
    requires asg == map[]
    ensures Load(asg, q) == 0
  {
    var served := set id | id in asg && asg[id] == q;
    assert forall id :: id !in served;
  }

  lemma {:induction false} LastIdIsNew(flat: seq<Conn>)
    requires DistinctIds(flat) && flat != []
    ensures forall c :: c in flat[..|flat| - 1] ==> c.id != flat[|flat| - 1].id
  {
    forall c | c in flat[..|flat| - 1] ensures c.id != flat[|flat| - 1].id {
      var i :| 0 <= i < |flat| - 1 && flat[..|flat| - 1][i] == c;
      assert flat[i] == c;
    }
  }

  // Each proxy gets the quotient, the first few get one more.
  lemma {:induction false} LoadsBalanced(flat: seq<Conn>, pool: seq<string>, k: nat)
    requires pool != [] && Distinct(pool) && DistinctIds(flat) && k < |pool|
    ensures Load(Dealt(flat, pool), pool[k]) == |flat| / |pool| + (if k < |flat| % |pool| then 1 else 0)
  {
    var p := |pool|;
    if flat == [] {
      NoLoad(Dealt(flat, pool), pool[k]);
      ModSmall(0, p);
    } else {
      var front, last := flat[..|flat| - 1], flat[|flat| - 1];
      LoadsBalanced(front, pool, k);
      DealtKeys(front, pool);
      LastIdIsNew(flat);
      var n := |front|;
      LoadAdd(Dealt(front, pool), last.id, pool[n % p], pool[k]);
      assert pool[k] == pool[n % p] <==> k == n % p;
      NextDivMod(n, p);
    }
  }

  lemma {:induction false} NextDivMod(n: nat, p: nat)
    requires p > 0
    ensures n % p + 1 < p ==> (n + 1) / p == n / p && (n + 1) % p == n % p + 1
    ensures n % p + 1 == p ==> (n + 1) / p == n / p + 1 && (n + 1) % p == 0
  {
    assert n == (n / p) * p + n % p;
    if n % p + 1 < p {
      DivModUnique(n + 1, p, n / p, n % p + 1);
    } else {
      assert (n / p + 1) * p == (n / p) * p + p;
      DivModUnique(n + 1, p, n / p + 1, 0);
    }
  }

  // The loads of any two proxies of the pool differ by at most one.
  lemma {:induction false} LoadsDifferByAtMostOne(conns: seq<Conn>, pool: seq<string>, j: nat, k: nat)
    requires pool != [] && Distinct(pool) && DistinctIds(conns) && j < |pool| && k < |pool|
    ensures var asg := Dealt(Flattened(conns), pool);
            Load(asg, pool[j]) <= Load(asg, pool[k]) + 1
  {
    FlattenedDistinct(conns);
    LoadsBalanced(Flattened(conns), pool, j);
    LoadsBalanced(Flattened(conns), pool, k);
  }

  // ---- Filling in the missing ones ----------------------------------------------------

  type Used = map<string, set<string>>

  function UsedOf(used: Used, p: string): set<string> {
    if p in used then used[p] else {}
  }

  // Proxies the provider's connections already have.
  function Existing(conns: seq<Conn>, p: string): (qs: set<string>)
    ensures forall q :: q in qs <==> q != "" && exists c :: c in conns && c.provider == p && Strip(c.proxy) == q
  {
    set c | c in conns && c.provider == p && Proxied(c) :: Strip(c.proxy)
  }

  method UsedProxiesByProvider(conns: seq<Conn>) returns (used: Used)
    ensures forall p :: UsedOf(used, p) == Existing(conns, p)
  {
    used := map[];
    for i := 0 to |conns|
      invariant forall p :: UsedOf(used, p) == Existing(conns[..i], p)
    {
      var c := conns[i];
      assert conns[..i + 1] == conns[..i] + [c];
      var proxy := Strip(c.proxy);
      ghost var before := used;
      if proxy != "" {
        used := used[c.provider := UsedOf(used, c.provider) + {proxy}];
      }
      forall p ensures UsedOf(used, p) == Existing(conns[..i + 1], p) {
        assert Existing(conns[..i + 1], p)
            == Existing(conns[..i], p) + (if c.provider == p && Proxied(c) then {proxy} else {});
      }
    }
    assert conns[..|conns|] == conns;
  }

  predicate Exhausted(pool: seq<string>, used: set<string>) {
    forall q :: q in pool ==> q in used
  }

  // The first unused proxy counting round from the offset.
  function FirstUnused(pool: seq<string>, used: set<string>, offset: nat, i: nat): (r: string)
    requires pool != [] && i <= |pool|
    decreases |pool| - i
  {
    if i == |pool| then Slot(pool, offset)
    else if Slot(pool, offset + i) !in used then Slot(pool, offset + i)
    else FirstUnused(pool, used, offset, i + 1)
  }

  method PickUnusedProxy(pool: seq<string>, used: set<string>, offset: nat) returns (r: string)
    requires pool != []
    ensures r == FirstUnused(pool, used, offset, 0)
    ensures r in pool && (r in used ==> Exhausted(pool, used))
  {
    PickAvoidsUsed(pool, used, offset);
    for i := 0 to |pool|
      invariant FirstUnused(pool, used, offset, i) == FirstUnused(pool, used, offset, 0)
    {
      var candidate := Slot(pool, offset + i);
      if candidate !in used {
        return candidate;
      }
    }
    return Slot(pool, offset);
  }

  // Counting round from any offset reaches every position.
  lemma {:induction false} RoundReaches(offset: nat, k: nat, p: nat) returns (i: nat)
    requires k < p
    ensures i < p && (offset + i) % p == k
  {
    var o := offset % p;
    i := if o <= k then k - o else k - o + p;
    ModShift(offset, i, p);
    if o <= k {
      ModSmall(k, p);
    } else {
      ModLess(o + i, p);
      ModSmall(k, p);
    }
  }

  lemma {:induction false} FirstUnusedSearch(pool: seq<string>, used: set<string>, offset: nat, i: nat)
    requires pool != [] && i <= |pool|
    ensures FirstUnused(pool, used, offset, i) in pool
    ensures FirstUnused(pool, used, offset, i) in used ==>
              forall k :: offset + i <= k < offset + |pool| ==> Slot(pool, k) in used
    decreases |pool| - i
  {
    if i < |pool| && Slot(pool, offset + i) in used {
      FirstUnusedSearch(pool, used, offset, i + 1);
    }
  }

  // A used proxy is picked only when the whole pool is used.
  lemma {:induction false} PickAvoidsUsed(pool: seq<string>, used: set<string>, offset: nat)
    requires pool != []
    ensures var r := FirstUnused(pool, used, offset, 0);
            r in pool && (r in used ==> Exhausted(pool, used))
  {
    FirstUnusedSearch(pool, used, offset, 0);
    if FirstUnused(pool, used, offset, 0) in used {
      forall q | q in pool ensures q in used {
        var k :| 0 <= k < |pool| && pool[k] == q;
        var i := RoundReaches(offset, k, |pool|);
        assert Slot(pool, offset + i) in used;
      }
    }
  }

  // The running state of the fill-in loop.
  datatype Book = Book(asg: Assignments, used: Used, offset: nat)

  function Place(b: Book, c: Conn, pool: seq<string>): Book
    requires pool != []
  {
    if Proxied(c) then b
    else
      var q := FirstUnused(pool, UsedOf(b.used, c.provider), b.offset, 0);
      Book(b.asg[c.id := q], b.used[c.provider := UsedOf(b.used, c.provider) + {q}], b.offset + 1)
  }

  function PlaceAll(used: Used, flat: seq<Conn>, pool: seq<string>): Book
    requires pool != []
  {
    if flat == [] then Book(map[], used, 0)
    else Place(PlaceAll(used, flat[..|flat| - 1], pool), flat[|flat| - 1], pool)
  }

  method AssignmentsForUnproxied(conns: seq<Conn>, pool: seq<string>) returns (asg: Assignments, ghost used: Used)
    ensures pool == [] || conns == [] ==> asg == map[]
    ensures pool != [] && conns != [] ==>
              && (forall p :: UsedOf(used, p) == Existing(conns, p))
              && asg == PlaceAll(used, Flattened(conns), pool).asg
  {
    asg, used := map[], map[];
    if pool == [] || conns == [] {
      return;
    }
    var inUse := UsedProxiesByProvider(conns);
    used := inUse;
    var offset := 0;
    var order, groups := GroupByProvider(conns);
    assert order[..0] == [];
    for g := 0 to |order|
      invariant Book(asg, inUse, offset) == PlaceAll(used, Flat(order[..g], conns), pool)
    {
      FlatGrows(order, conns, g);
      asg, inUse, offset := PlaceGroup(used, Flat(order[..g], conns), groups[order[g]], pool, asg, inUse, offset);
    }
    assert order[..|order|] == order;
  }

  // The inner loop: one provider's connections.
  method PlaceGroup(ghost used: Used, ghost before: seq<Conn>, mine: seq<Conn>, pool: seq<string>,
                    asg: Assignments, inUse: Used, offset: nat)
    returns (asg': Assignments, inUse': Used, offset': nat)
    requires pool != [] && Book(asg, inUse, offset) == PlaceAll(used, before, pool)
    ensures Book(asg', inUse', offset') == PlaceAll(used, before + mine, pool)
  {
    asg', inUse', offset' := asg, inUse, offset;
    assert before + mine[..0] == before;
    for i := 0 to |mine|
      invariant Book(asg', inUse', offset') == PlaceAll(used, before + mine[..i], pool)
    {
      var c := mine[i];
      assert (before + mine[..i + 1])[..|before| + i] == before + mine[..i];
      if Strip(c.proxy) == "" {
        var proxy := PickUnusedProxy(pool, UsedOf(inUse', c.provider), offset');
        inUse' := inUse'[c.provider := UsedOf(inUse', c.provider) + {proxy}];
        asg' := asg'[c.id := proxy];
        offset' := offset' + 1;
      }
    }
    assert mine[..|mine|] == mine;
  }

  // flat[i] is an unproxied connection of provider p that was given q.
  ghost predicate HandedOut(asg: Assignments, flat: seq<Conn>, i: int, p: string, q: string) {
    && 0 <= i < |flat| && flat[i].provider == p && !Proxied(flat[i])
    && flat[i].id in asg && asg[flat[i].id] == q
  }

  // Later placements leave earlier ones alone.
  lemma {:induction false} PlacedForGood(used: Used, flat: seq<Conn>, pool: seq<string>, i: nat, m: nat)
    requires pool != [] && DistinctIds(flat) && i < m <= |flat|
    ensures var asg, asg' := PlaceAll(used, flat[..m], pool).asg, PlaceAll(used, flat, pool).asg;
            (flat[i].id in asg <==> flat[i].id in asg') && (flat[i].id in asg ==> asg[flat[i].id] == asg'[flat[i].id])
  {
    if m == |flat| {
      assert flat[..m] == flat;
    } else {
      var front := flat[..|flat| - 1];
      PlacedForGood(used, front, pool, i, m);
      assert front[..m] == flat[..m];
    }
  }

  // In use for a provider: what it had, and what was handed out to it.
  lemma {:induction false} UsedIsExistingPlusHandedOut(used: Used, flat: seq<Conn>, pool: seq<string>, p: string,
                                                       q: string)
    requires pool != [] && DistinctIds(flat) && q in UsedOf(PlaceAll(used, flat, pool).used, p)
    ensures q in UsedOf(used, p) || exists i :: HandedOut(PlaceAll(used, flat, pool).asg, flat, i, p, q)
  {
    if flat == [] {
    } else {
      var front, n := flat[..|flat| - 1], |flat| - 1;
      var asg := PlaceAll(used, flat, pool).asg;
      if q in UsedOf(PlaceAll(used, front, pool).used, p) {
        UsedIsExistingPlusHandedOut(used, front, pool, p, q);
        if q !in UsedOf(used, p) {
          var i :| HandedOut(PlaceAll(used, front, pool).asg, front, i, p, q);
          PlacedForGood(used, flat, pool, i, n);
          assert HandedOut(asg, flat, i, p, q);
        }
      } else {
        assert HandedOut(asg, flat, n, p, q);
      }
    }
  }

  lemma {:induction false} HandedOutIsUsed(used: Used, flat: seq<Conn>, pool: seq<string>, i: nat, p: string, q: string)
    requires pool != [] && DistinctIds(flat)
    requires q in UsedOf(used, p) || HandedOut(PlaceAll(used, flat, pool).asg, flat, i, p, q)
    ensures q in UsedOf(PlaceAll(used, flat, pool).used, p)
  {
    if flat == [] {
    } else {
      var n := |flat| - 1;
      var front := flat[..n];
      if q in UsedOf(used, p) || i < n {
        if i < n {
          PlacedForGood(used, flat, pool, i, n);
        }
        HandedOutIsUsed(used, front, pool, i, p, q);
      }
    }
  }

  // A proxy is reused within a provider only when the whole pool is already in
  // use there: if the i-th connection gets one that its provider had, or that
  // an earlier connection of it got, then so it is with every proxy of the pool.
  lemma {:induction false} ReuseOnlyWhenExhausted(used: Used, flat: seq<Conn>, pool: seq<string>, i: nat, j: nat,
                                                  x: string)
    requires pool != [] && DistinctIds(flat) && i < |flat| && !Proxied(flat[i]) && x in pool
    requires var asg := PlaceAll(used, flat, pool).asg;
             flat[i].id in asg &&
             (asg[flat[i].id] in UsedOf(used, flat[i].provider)
              || (j < i && HandedOut(asg, flat, j, flat[i].provider, asg[flat[i].id])))
    ensures x in UsedOf(used, flat[i].provider)
            || exists k :: k < i && HandedOut(PlaceAll(used, flat, pool).asg, flat, k, flat[i].provider, x)
  {
    var asg, p := PlaceAll(used, flat, pool).asg, flat[i].provider;
    var before := PlaceAll(used, flat[..i], pool);
    PlacedForGood(used, flat, pool, i, i + 1);
    assert flat[..i + 1][..i] == flat[..i];
    var q := FirstUnused(pool, UsedOf(before.used, p), before.offset, 0);
    assert asg[flat[i].id] == q;
    if q !in UsedOf(used, p) {
      PlacedForGood(used, flat, pool, j, i);
      assert HandedOut(before.asg, flat[..i], j, p, q);
    }
    HandedOutIsUsed(used, flat[..i], pool, j, p, q);
    PickAvoidsUsed(pool, UsedOf(before.used, p), before.offset);
    UsedIsExistingPlusHandedOut(used, flat[..i], pool, p, x);
    if x !in UsedOf(used, p) {
      var k :| HandedOut(before.asg, flat[..i], k, p, x);
      PlacedForGood(used, flat, pool, k, i);
      assert HandedOut(asg, flat, k, p, x);
    }
  }

  lemma {:induction false} PlacedIds(used: Used, flat: seq<Conn>, pool: seq<string>)
    requires pool != []
    ensures forall id :: id in PlaceAll(used, flat, pool).asg <==> exists c :: c in flat && !Proxied(c) && c.id == id
  {
    if flat == [] {
    } else {
      var front, last := flat[..|flat| - 1], flat[|flat| - 1];
      PlacedIds(used, front, pool);
      assert forall c :: c in flat <==> c in front || c == last;
    }
  }

  // Exactly the connections without a proxy are given one.
  lemma {:induction false} UnproxiedServed(used: Used, conns: seq<Conn>, pool: seq<string>)
    requires pool != []
    ensures forall id :: id in PlaceAll(used, Flattened(conns), pool).asg
                         <==> exists c :: c in conns && !Proxied(c) && c.id == id
  {
    PlacedIds(used, Flattened(conns), pool);
    FlattenedMembers(conns);
  }

  // Connections among the first i that are given a proxy.
  function Unproxied(flat: seq<Conn>): nat {
    if flat == [] then 0
    else Unproxied(flat[..|flat| - 1]) + if Proxied(flat[|flat| - 1]) then 0 else 1
  }

  lemma {:induction false} OffsetCounts(used: Used, flat: seq<Conn>, pool: seq<string>)
    requires pool != []
    ensures PlaceAll(used, flat, pool).offset == Unproxied(flat)
  {
    if flat == [] {
    } else {
      OffsetCounts(used, flat[..|flat| - 1], pool);
    }
  }

  // The first proxy not in use, counting round the pool from this position.
  ghost predicate NextFree(pool: seq<string>, inUse: set<string>, from: nat, q: string)
    requires pool != []
  {
    if Exhausted(pool, inUse) then q == pool[from % |pool|]
    else exists k :: NextFreeAt(pool, inUse, from, k, q)
  }

  ghost predicate NextFreeAt(pool: seq<string>, inUse: set<string>, from: nat, k: nat, q: string)
    requires pool != []
  {
    from <= k < from + |pool| && q == pool[k % |pool|] && q !in inUse
    && forall j :: from <= j < k ==> Slot(pool, j) in inUse
  }

  lemma {:induction false} FirstUnusedAt(pool: seq<string>, used: set<string>, offset: nat, i: nat) returns (k: nat)
    requires pool != [] && i <= |pool| && forall j :: offset <= j < offset + i ==> Slot(pool, j) in used
    requires FirstUnused(pool, used, offset, i) !in used
    ensures NextFreeAt(pool, used, offset, k, FirstUnused(pool, used, offset, i))
    decreases |pool| - i
  {
    if i < |pool| && Slot(pool, offset + i) in used {
      k := FirstUnusedAt(pool, used, offset, i + 1);
    } else {
      k := offset + i;
    }
  }

  lemma {:induction false} ExhaustedWraps(pool: seq<string>, used: set<string>, offset: nat, i: nat)
    requires pool != [] && i <= |pool| && Exhausted(pool, used)
    ensures FirstUnused(pool, used, offset, i) == Slot(pool, offset)
    decreases |pool| - i
  {
    if i < |pool| {
      ExhaustedWraps(pool, used, offset, i + 1);
    }
  }

  // Each connection without a proxy gets the first one its provider does not use, counting
  // round the pool from the number of connections served before it; the search wraps to
  // where it began when the provider uses them all.
  lemma {:induction false} ServedInTurn(used: Used, flat: seq<Conn>, pool: seq<string>, i: nat)
    requires pool != [] && DistinctIds(flat) && i < |flat| && !Proxied(flat[i])
    ensures var asg, before := PlaceAll(used, flat, pool).asg, PlaceAll(used, flat[..i], pool);
            && flat[i].id in asg
            && NextFree(pool, UsedOf(before.used, flat[i].provider), Unproxied(flat[..i]), asg[flat[i].id])
  {
    var before, p := PlaceAll(used, flat[..i], pool), flat[i].provider;
    PlacedForGood(used, flat, pool, i, i + 1);
    assert flat[..i + 1][..i] == flat[..i];
    OffsetCounts(used, flat[..i], pool);
    FirstUnusedIsNext(pool, UsedOf(before.used, p), before.offset);
  }

  lemma {:induction false} FirstUnusedIsNext(pool: seq<string>, inUse: set<string>, offset: nat)
    requires pool != []
    ensures NextFree(pool, inUse, offset, FirstUnused(pool, inUse, offset, 0))
  {
    PickAvoidsUsed(pool, inUse, offset);
    if Exhausted(pool, inUse) {
      ExhaustedWraps(pool, inUse, offset, 0);
    } else {
      FreeUnlessExhausted(pool, inUse, offset);
      var k := FirstUnusedAt(pool, inUse, offset, 0);
    }
  }

  lemma {:induction false} FreeUnlessExhausted(pool: seq<string>, inUse: set<string>, offset: nat)
    requires pool != [] && !Exhausted(pool, inUse)
    ensures FirstUnused(pool, inUse, offset, 0) !in inUse
  {
    PickAvoidsUsed(pool, inUse, offset);
  }
}
