/**
 The nested allocator `subnets: subnet -> suffix -> ports` of the signaling
 server: its five operations as functions on the map, and what each does to the
 set of members and the set of claimed ports.
 */
module Allocator {
  import opened Wrappers
  import opened Address

  type Members = map<nat, seq<nat>>
  type Subnets = map<string, Members>

  /** Everything a server method can throw. */
  datatype Error =
    | SubnetDoesNotExist
    | SuffixDoesNotExist
    | PortAlreadyAllocated
    | ClientClosed
    | UndefinedAlias

  const REJECTED := "-1"
  const MAX_SUFFIX: nat := 255

  // ------------------------------------------- sort, then scan for a gap

  predicate Distinct(s: seq<nat>) { forall i, j | 0 <= i < j < |s| :: s[i] != s[j] }

  predicate Sorted(s: seq<nat>) { forall i, j | 0 <= i < j < |s| :: s[i] <= s[j] }

  function Elements(s: seq<nat>): set<nat> { set x | x in s }

  function Insert(x: nat, s: seq<nat>): seq<nat> {
    if s == [] then [x] else if x <= s[0] then [x] + s else [s[0]] + Insert(x, s[1..])
  }

  function Sort(s: seq<nat>): seq<nat> {
    if s == [] then [] else Insert(s[0], Sort(s[1..]))
  }

  /** The first index that does not hold itself: what the `res(index)` loop resolves with. */
  function Scan(s: seq<nat>, index: nat): nat
    requires index <= |s|
    decreases |s| - index
  {
    if index == |s| || s[index] != index then index else Scan(s, index + 1)
  }

  predicate IsLowestFree(r: nat, taken: set<nat>) {
    r !in taken && forall k: nat | k < r :: k in taken
  }

  /** The least natural from k on that is outside a finite set. */
  function LeastFrom(taken: set<nat>, k: nat): (r: nat)
    ensures k <= r && r !in taken && r - k <= |taken|
    ensures forall j: nat :: k <= j < r ==> j in taken
    decreases |taken|
  {
    if k !in taken then k
    else
      var others := taken - {k};
      var r := LeastFrom(others, k + 1);
      assert forall j: nat :: j in others ==> j in taken;
      assert forall j: nat :: k <= j < r ==> j == k || j in others;
      r
  }

  /** The reference: the least natural outside a finite set. */
  function LowestFree(taken: set<nat>): (r: nat)
    ensures IsLowestFree(r, taken)
    ensures r <= |taken|
  {
    LeastFrom(taken, 0)
  }

  lemma {:induction false} InsertSorted(x: nat, s: seq<nat>)
    requires Sorted(s)
    ensures Sorted(Insert(x, s))
    ensures forall y | y in Insert(x, s) :: y == x || y in s
  {
    if s != [] && x > s[0] {
      InsertSorted(x, s[1..]);
      var rest := Insert(x, s[1..]);
      forall i | 0 <= i < |rest| ensures s[0] <= rest[i] { assert rest[i] in rest; }
    }
  }

  lemma {:induction false} InsertKeeps(x: nat, s: seq<nat>)
    ensures multiset(Insert(x, s)) == multiset{x} + multiset(s)
  {
    if s != [] && x > s[0] {
      assert s == [s[0]] + s[1..];
      InsertKeeps(x, s[1..]);
    }
  }

  lemma {:induction false} SortSorts(s: seq<nat>)
    ensures Sorted(Sort(s)) && multiset(Sort(s)) == multiset(s)
  {
    if s != [] {
      assert s == [s[0]] + s[1..];
      SortSorts(s[1..]);
      InsertSorted(s[0], Sort(s[1..]));
      InsertKeeps(s[0], Sort(s[1..]));
    }
  }

  lemma {:induction false} DistinctCounts(s: seq<nat>)
    ensures Distinct(s) <==> forall x | x in multiset(s) :: multiset(s)[x] == 1
  {
    if s != [] {
      var t := s[1..];
      assert s == [s[0]] + t;
      DistinctCounts(t);
      assert multiset(s) == multiset{s[0]} + multiset(t);
      if Distinct(s) {
        forall i, j | 0 <= i < j < |t| ensures t[i] != t[j] { assert s[i + 1] != s[j + 1]; }
        assert s[0] !in t;
      } else if Distinct(t) {
        forall i, j | 0 < i < j < |s| ensures s[i] != s[j] { assert t[i - 1] != t[j - 1]; }
        var j :| 0 < j < |s| && s[0] == s[j];
        assert t[j - 1] == s[0];
        assert s[0] in multiset(t);
        assert multiset(s)[s[0]] > 1;
      } else {
        var x :| x in multiset(t) && multiset(t)[x] != 1;
        assert x in multiset(s) && multiset(s)[x] > 1;
      }
    }
  }

  lemma SortKeeps(s: seq<nat>)
    ensures Sorted(Sort(s)) && |Sort(s)| == |s| && Elements(Sort(s)) == Elements(s)
    ensures Distinct(s) <==> Distinct(Sort(s))
  {
    SortSorts(s);
    DistinctCounts(s);
    DistinctCounts(Sort(s));
    assert |Sort(s)| == |multiset(Sort(s))| == |multiset(s)| == |s|;
    forall x ensures x in Sort(s) <==> x in s {
      assert x in Sort(s) <==> x in multiset(Sort(s));
      assert x in s <==> x in multiset(s);
    }
  }

  lemma {:induction false} SortedDistinctAbove(s: seq<nat>, i: nat)
    requires Sorted(s) && Distinct(s) && i < |s|
    ensures s[i] >= i
  {
    if i > 0 {
      SortedDistinctAbove(s, i - 1);
      assert s[i - 1] != s[i];
    }
  }

  lemma {:induction false} ScanFinds(s: seq<nat>, index: nat)
    requires Sorted(s) && Distinct(s) && index <= |s|
    requires forall k | 0 <= k < index :: s[k] == k
    ensures IsLowestFree(Scan(s, index), Elements(s))
    decreases |s| - index
  {
    if index < |s| && s[index] == index {
      ScanFinds(s, index + 1);
    } else {
      forall j | 0 <= j < |s| ensures s[j] != index {
        if index <= j { SortedDistinctAbove(s, j); }
        if index < j { SortedDistinctAbove(s, index); assert s[index] <= s[j]; }
      }
      forall k: nat | k < index ensures k in Elements(s) { assert s[k] == k; }
    }
  }

  /** Sort-then-scan returns the least natural absent from a list of distinct naturals. */
  lemma ScanIsLowestFree(s: seq<nat>)
    requires Distinct(s)
    ensures Scan(Sort(s), 0) == LowestFree(Elements(s))
    ensures Scan(Sort(s), 0) <= |s|
  {
    SortKeeps(s);
    ScanFinds(Sort(s), 0);
    ElementsBound(s);
    var r, q := Scan(Sort(s), 0), LowestFree(Elements(s));
    assert r < q ==> r in Elements(s);
    assert q < r ==> q in Elements(s);
  }

  lemma {:induction false} ElementsBound(s: seq<nat>)
    ensures |Elements(s)| <= |s|
  {
    if s != [] {
      ElementsBound(s[1..]);
      assert Elements(s) == {s[0]} + Elements(s[1..]);
    } else {
      assert Elements(s) == {};
    }
  }

  lemma OnlyOnce(t: seq<nat>, i: nat)
    requires i < |t| && forall j | 0 <= j < |t| && j != i :: t[j] != t[i]
    ensures multiset(t)[t[i]] == 1
  {
    var before, after := t[..i], t[i + 1..];
    assert t == before + [t[i]] + after;
    assert t[i] !in before && t[i] !in after;
  }

  lemma MoreThanOnce(t: seq<nat>, i: nat, j: nat)
    requires i < j < |t| && t[i] == t[j]
    ensures multiset(t)[t[i]] > 1
  {
    assert t == t[..j] + [t[j]] + t[j + 1..];
    assert t[..j][i] in multiset(t[..j]);
  }

  lemma {:induction false} ScanStops(t: seq<nat>, index: nat)
    requires index <= |t| && forall k | 0 <= k < index :: t[k] == k
    ensures var r := Scan(t, index);
      r <= |t| && (forall k | 0 <= k < r :: t[k] == k) && (r == |t| || t[r] != r)
    decreases |t| - index
  {
    if index < |t| && t[index] == index {
      ScanStops(t, index + 1);
    }
  }

  /**
   Whatever the list, sort-then-scan finds the least absent natural exactly when no
   number is listed twice before the one below the gap; otherwise it hands out a
   number that is taken.
   */
  lemma ScanIsFreeIff(s: seq<nat>)
    ensures Scan(Sort(s), 0) == LowestFree(Elements(s)) <==>
              forall x: nat | x + 1 < LowestFree(Elements(s)) :: multiset(s)[x] == 1
    ensures Scan(Sort(s), 0) != LowestFree(Elements(s)) ==> Scan(Sort(s), 0) in s
  {
    hide Scan, Sort, LowestFree;
    var t, r, g := Sort(s), Scan(Sort(s), 0), LowestFree(Elements(s));
    SortKeeps(s);
    SortSorts(s);
    ScanStops(t, 0);
    forall k: nat | k < r ensures k in Elements(s) { assert t[k] == k && t[k] in t; }
    assert r <= g;
    if r == g {
      forall x: nat | x + 1 < g ensures multiset(s)[x] == 1 {
        assert t[x] == x && t[x + 1] == x + 1;
        OnlyOnce(t, x);
      }
    } else {
      assert r in Elements(s) && r in t;
      var j :| 0 <= j < |t| && t[j] == r;
      MoreThanOnce(t, t[r], r);
    }
  }

  // ------------------------------------------------- the five operations

  /** The first write of createIPAddress: an unknown subnet gets an empty map. */
  function EnsureSubnet(subnets: Subnets, subnet: string): Subnets {
    if subnet in subnets then subnets else subnets[subnet := map[]]
  }

  function SetPorts(subnets: Subnets, ip: Ip, ports: seq<nat>): Subnets
    requires ip.subnet in subnets
  {
    var members: Members := subnets[ip.subnet][ip.suffix := ports];
    subnets[ip.subnet := members]
  }

  /** The least suffix of a subnet that has no member. */
  function FreeSuffix(subnets: Subnets, subnet: string): nat {
    LowestFree(if subnet in subnets then subnets[subnet].Keys else {})
  }

  function CreateIP(subnets: Subnets, subnet: string): (Subnets, string) {
    var ensured := EnsureSubnet(subnets, subnet);
    var suffix := FreeSuffix(subnets, subnet);
    if suffix > MAX_SUFFIX then (ensured, REJECTED)
    else (SetPorts(ensured, Ip(subnet, suffix), []), ToIPAddress(subnet, suffix))
  }

  /** Where createTCPAddress looks: the existing member an IP address text names. */
  function Locate(subnets: Subnets, ipAddress: string): Result<Ip, Error> {
    var (subnet, suffix) := ParseIPAddress(ipAddress);
    if subnet !in subnets then Err(SubnetDoesNotExist)
    else if suffix.None? || suffix.value !in subnets[subnet] then Err(SuffixDoesNotExist)
    else Ok(Ip(subnet, suffix.value))
  }

  function CreateTCP(subnets: Subnets, ipAddress: string): Result<(Subnets, string), Error> {
    match Locate(subnets, ipAddress)
    case Err(e) => Err(e)
    case Ok(ip) =>
      var sorted := Sort(subnets[ip.subnet][ip.suffix]);
      var port := Scan(sorted, 0);
      Ok((SetPorts(subnets, ip, sorted + [port]), PrintTcp(Tcp(ip, port))))
  }

  /** The alias texts claimTCPAddress is modelled for: in a known subnet, both numbers parse. */
  predicate Claimable(subnets: Subnets, tcpAddress: string) {
    ParseIPAddress(ParseTCPAddress(tcpAddress).0).0 in subnets ==> ReadTcp(tcpAddress).Some?
  }

  function ClaimTCP(subnets: Subnets, tcpAddress: string): Result<Subnets, Error>
    requires Claimable(subnets, tcpAddress)
  {
    if ParseIPAddress(ParseTCPAddress(tcpAddress).0).0 !in subnets then Err(SubnetDoesNotExist)
    else
      var t := ReadTcp(tcpAddress).value;
      var members := subnets[t.ip.subnet];
      var ports := if t.ip.suffix in members then members[t.ip.suffix] else [];
      if t.port in ports then Err(PortAlreadyAllocated)
      else Ok(SetPorts(subnets, t.ip, ports + [t.port]))
  }

  function RemoveIP(subnets: Subnets, ipAddress: string): Subnets {
    var ip := ReadIp(ipAddress);
    if ip.Some? && Has(subnets, ip.value) then
      subnets[ip.value.subnet := subnets[ip.value.subnet] - {ip.value.suffix}]
    else subnets
  }

  function RemoveTCP(subnets: Subnets, tcpAddress: string): Subnets {
    var t := ReadTcp(tcpAddress);
    if t.Some? && Has(subnets, t.value.ip) then
      SetPorts(subnets, t.value.ip, Without(subnets[t.value.ip.subnet][t.value.ip.suffix], t.value.port))
    else subnets
  }

  // ------------------------------------------------ members and claims

  predicate Has(subnets: Subnets, ip: Ip) {
    ip.subnet in subnets && ip.suffix in subnets[ip.subnet]
  }

  predicate Claimed(subnets: Subnets, t: Tcp) {
    Has(subnets, t.ip) && t.port in subnets[t.ip.subnet][t.ip.suffix]
  }

  /** Subnet names are well-formed and no port is listed twice. */
  ghost predicate Tidy(subnets: Subnets) {
    && (forall s | s in subnets :: WellFormedSubnet(s))
    && (forall ip: Ip | Has(subnets, ip) :: Distinct(subnets[ip.subnet][ip.suffix]))
  }

  ghost predicate SameMembers(a: Subnets, b: Subnets) { forall ip: Ip :: Has(a, ip) <==> Has(b, ip) }

  ghost predicate SameClaims(a: Subnets, b: Subnets) { forall t: Tcp :: Claimed(a, t) <==> Claimed(b, t) }

  lemma {:induction false} WithoutFilters(ports: seq<nat>, port: nat)
    ensures forall x: nat :: x in Without(ports, port) <==> x in ports && x != port
    ensures Distinct(ports) ==> Distinct(Without(ports, port))
  {
    if ports != [] {
      WithoutFilters(ports[1..], port);
      assert ports == [ports[0]] + ports[1..];
      if Distinct(ports) {
        assert forall i, j | 0 <= i < j < |ports[1..]| ::
          ports[1..][i] == ports[i + 1] && ports[1..][j] == ports[j + 1];
        assert ports[0] !in ports[1..];
      }
    }
  }

  lemma RejectedIsNoAddress(subnet: string, suffix: nat)
    ensures ToIPAddress(subnet, suffix) != REJECTED
  {
    assert '.' in ToIPAddress(subnet, suffix) by { assert ToIPAddress(subnet, suffix)[|subnet|] == '.'; }
  }

  lemma SetPortsTwice(subnets: Subnets, ip: Ip, first: seq<nat>, second: seq<nat>)
    requires ip.subnet in subnets
    ensures SetPorts(SetPorts(subnets, ip, first), ip, second) == SetPorts(subnets, ip, second)
  {
    var members: Members := subnets[ip.subnet];
    assert members[ip.suffix := first][ip.suffix := second] == members[ip.suffix := second];
  }

  lemma SetPortsEffect(subnets: Subnets, ip: Ip, ports: seq<nat>)
    requires Tidy(subnets) && ip.subnet in subnets && Distinct(ports)
    ensures var after := SetPorts(subnets, ip, ports);
      && Tidy(after) && after.Keys == subnets.Keys
      && (forall i: Ip :: Has(after, i) <==> Has(subnets, i) || i == ip)
      && (forall t: Tcp :: Claimed(after, t) <==> if t.ip == ip then t.port in ports else Claimed(subnets, t))
  {
    var after := SetPorts(subnets, ip, ports);
    forall i: Ip | Has(after, i) ensures Distinct(after[i.subnet][i.suffix]) {
      if i != ip { assert after[i.subnet][i.suffix] == subnets[i.subnet][i.suffix]; }
    }
  }

  lemma EnsureSubnetEffect(subnets: Subnets, subnet: string)
    requires Tidy(subnets) && WellFormedSubnet(subnet)
    ensures var after := EnsureSubnet(subnets, subnet);
      subnet in after && Tidy(after) && SameMembers(subnets, after) && SameClaims(subnets, after)
  {
    var after := EnsureSubnet(subnets, subnet);
    forall ip: Ip | Has(after, ip) ensures Distinct(after[ip.subnet][ip.suffix]) {
      assert Has(subnets, ip);
    }
  }

  lemma FreeSuffixIsFree(subnets: Subnets, subnet: string)
    ensures var n := FreeSuffix(subnets, subnet);
      && !Has(subnets, Ip(subnet, n))
      && forall k: nat :: k < n ==> Has(subnets, Ip(subnet, k))
  {}

  /**
   A knock is refused exactly when all of 0..255 are taken; otherwise it gets the
   least free suffix and a new member with no ports.
   */
  lemma CreateIPEffect(subnets: Subnets, subnet: string)
    requires Tidy(subnets) && WellFormedSubnet(subnet)
    ensures var after, id := CreateIP(subnets, subnet).0, CreateIP(subnets, subnet).1;
      var n := FreeSuffix(subnets, subnet);
      && Tidy(after) && SameClaims(subnets, after) && subnet in after && subnets.Keys <= after.Keys
      && (id == "-1" <==> forall k: nat :: k <= 255 ==> Has(subnets, Ip(subnet, k)))
      && (id == REJECTED <==> n > 255) && (id == REJECTED <==> id == "-1")
      && (id == REJECTED ==> SameMembers(subnets, after))
      && (id != REJECTED ==>
            && id == PrintIp(Ip(subnet, n)) && ReadIp(id) == Some(Ip(subnet, n))
            && !Has(subnets, Ip(subnet, n))
            && forall ip: Ip :: Has(after, ip) <==> Has(subnets, ip) || ip == Ip(subnet, n))
  {
    var n := FreeSuffix(subnets, subnet);
    FreeSuffixIsFree(subnets, subnet);
    EnsureSubnetEffect(subnets, subnet);
    RejectedIsNoAddress(subnet, n);
    IpRoundTrip(Ip(subnet, n));
    if n <= MAX_SUFFIX {
      SetPortsEffect(EnsureSubnet(subnets, subnet), Ip(subnet, n), []);
    }
  }

  ghost predicate ClaimsPlus(before: Subnets, after: Subnets, t: Tcp) {
    && !Claimed(before, t)
    && forall u: Tcp :: Claimed(after, u) <==> Claimed(before, u) || u == t
  }

  /** A connect gets the least free port of its own member, at most the number of ports held there. */
  lemma CreateTCPEffect(subnets: Subnets, ipAddress: string)
    requires Tidy(subnets)
    requires CreateTCP(subnets, ipAddress).Ok?
    ensures var (after, alias) := CreateTCP(subnets, ipAddress).value;
      && ReadIp(ipAddress).Some? && Has(subnets, ReadIp(ipAddress).value)
      && var ip := ReadIp(ipAddress).value;
      && var ports := subnets[ip.subnet][ip.suffix];
      && var t := Tcp(ip, LowestFree(Elements(ports)));
      && alias == PrintTcp(t) && ReadTcp(alias) == Some(t)
      && t.port <= |ports|
      && ClaimsPlus(subnets, after, t)
      && Tidy(after) && SameMembers(subnets, after) && after.Keys == subnets.Keys
  {
    var ip := Locate(subnets, ipAddress).value;
    var ports := subnets[ip.subnet][ip.suffix];
    ScanIsLowestFree(ports);
    SortKeeps(ports);
    var t := Tcp(ip, LowestFree(Elements(ports)));
    TcpRoundTrip(t);
    assert forall p :: p in Sort(ports) <==> p in Elements(Sort(ports));
    SetPortsEffect(subnets, ip, Sort(ports) + [t.port]);
  }

  /** A connect is given a port exactly when its id names a member; otherwise the error says what is missing. */
  lemma CreateTCPFails(subnets: Subnets, ipAddress: string)
    ensures CreateTCP(subnets, ipAddress).Ok? <==> ReadIp(ipAddress).Some? && Has(subnets, ReadIp(ipAddress).value)
    ensures CreateTCP(subnets, ipAddress) == Err(SubnetDoesNotExist) <==> ParseIPAddress(ipAddress).0 !in subnets
    ensures CreateTCP(subnets, ipAddress).Err? && ParseIPAddress(ipAddress).0 in subnets ==>
      CreateTCP(subnets, ipAddress).error == SuffixDoesNotExist
  {
    hide Sort, Scan, PrintTcp, SetPorts;
  }

  /** A claim takes exactly the port it names, and fails only if that port was taken. */
  lemma ClaimTCPEffect(subnets: Subnets, tcpAddress: string)
    requires Tidy(subnets) && Claimable(subnets, tcpAddress)
    ensures match ClaimTCP(subnets, tcpAddress)
      case Ok(after) =>
        && ReadTcp(tcpAddress).Some?
        && var t := ReadTcp(tcpAddress).value;
        && ClaimsPlus(subnets, after, t)
        && Tidy(after) && after.Keys == subnets.Keys
        && (forall i: Ip :: Has(after, i) <==> Has(subnets, i) || i == t.ip)
      case Err(e) =>
        || (e == PortAlreadyAllocated && ReadTcp(tcpAddress).Some? && Claimed(subnets, ReadTcp(tcpAddress).value))
        || (e == SubnetDoesNotExist && ParseIPAddress(ParseTCPAddress(tcpAddress).0).0 !in subnets)
  {
    if ClaimTCP(subnets, tcpAddress).Ok? {
      var t := ReadTcp(tcpAddress).value;
      var members := subnets[t.ip.subnet];
      var ports := if t.ip.suffix in members then members[t.ip.suffix] else [];
      assert t.ip.suffix in members ==> Has(subnets, t.ip);
      SetPortsEffect(subnets, t.ip, ports + [t.port]);
    }
  }

  /** A release drops exactly the port it names. */
  lemma RemoveTCPEffect(subnets: Subnets, tcpAddress: string)
    requires Tidy(subnets)
    ensures var after := RemoveTCP(subnets, tcpAddress);
      && Tidy(after) && SameMembers(subnets, after) && after.Keys == subnets.Keys
      && (forall u: Tcp :: Claimed(after, u) <==> Claimed(subnets, u) && ReadTcp(tcpAddress) != Some(u))
  {
    var t := ReadTcp(tcpAddress);
    if t.Some? && Has(subnets, t.value.ip) {
      var ports := subnets[t.value.ip.subnet][t.value.ip.suffix];
      WithoutFilters(ports, t.value.port);
      SetPortsEffect(subnets, t.value.ip, Without(ports, t.value.port));
    }
  }

  /** Removing an address drops the member and every port claimed on it. */
  lemma RemoveIPEffect(subnets: Subnets, ipAddress: string)
    requires Tidy(subnets)
    ensures var after := RemoveIP(subnets, ipAddress);
      && Tidy(after) && after.Keys == subnets.Keys
      && (forall i: Ip :: Has(after, i) <==> Has(subnets, i) && ReadIp(ipAddress) != Some(i))
      && (forall u: Tcp :: Claimed(after, u) <==> Claimed(subnets, u) && ReadIp(ipAddress) != Some(u.ip))
  {
    var after := RemoveIP(subnets, ipAddress);
    forall i: Ip | Has(after, i) ensures Distinct(after[i.subnet][i.suffix]) {
      assert Has(subnets, i) && after[i.subnet][i.suffix] == subnets[i.subnet][i.suffix];
    }
  }
}
