/**
 The cache of permanent redirections (src/downloader/http_gateway.py; section 15.4 of RFC 9110
 defines redirection). Looking a key up follows at most ten entries and shortens the key's own
 entry. The functions give the meaning on a map of targets; the class holds the entries.
 */
module Redirects {
  import opened Prelude

  const MAX_HOPS := 10

  /** The text of a URL, which is only ever compared for equality. */
  datatype Url = Url(id: nat)

  /* ---- Chains ---- */

  function Walk(m: map<Url, Url>, x: Url, n: nat): Url
    decreases n
  {
    if n == 0 || x !in m then x else Walk(m, m[x], n - 1)
  }

  function Hops(m: map<Url, Url>, x: Url, n: nat): (h: nat)
    ensures h <= n
    decreases n
  {
    if n == 0 || x !in m then 0 else 1 + Hops(m, m[x], n - 1)
  }

  /** From x there are exactly n entries to follow. */
  predicate Ends(m: map<Url, Url>, x: Url, n: nat)
    decreases n
  {
    if n == 0 then x !in m else x in m && Ends(m, m[x], n - 1)
  }

  function Final(m: map<Url, Url>, x: Url, n: nat): Url
    requires Ends(m, x, n)
    decreases n
  {
    if n == 0 then x else Final(m, m[x], n - 1)
  }

  ghost predicate Terminates(m: map<Url, Url>, x: Url) { exists n: nat :: Ends(m, x, n) }
  ghost predicate Acyclic(m: map<Url, Url>) { forall x :: Terminates(m, x) }

  /** The chain of x passes through y. */
  predicate Visits(m: map<Url, Url>, x: Url, n: nat, y: Url)
    requires Ends(m, x, n)
    decreases n
  {
    x == y || (n > 0 && Visits(m, m[x], n - 1, y))
  }

  lemma {:induction false} EndsOnce(m: map<Url, Url>, x: Url, n: nat, k: nat)
    requires Ends(m, x, n) && Ends(m, x, k)
    ensures n == k
    decreases n
  {
    if n > 0 {
      EndsOnce(m, m[x], n - 1, k - 1);
    }
  }

  /** Ten hops of a chain of n entries leave n - 10, or none. */
  lemma {:induction false} WalkAlong(m: map<Url, Url>, x: Url, n: nat, hops: nat)
    requires Ends(m, x, n)
    ensures Hops(m, x, hops) == if n < hops then n else hops
    ensures Ends(m, Walk(m, x, hops), n - Hops(m, x, hops))
    ensures Final(m, Walk(m, x, hops), n - Hops(m, x, hops)) == Final(m, x, n)
    decreases n
  {
    if n > 0 && hops > 0 {
      WalkAlong(m, m[x], n - 1, hops - 1);
    }
  }

  /** A chain of at most ten entries is followed to its end. */
  lemma ShortChainIsResolved(m: map<Url, Url>, x: Url, n: nat)
    requires Ends(m, x, n) && n <= MAX_HOPS
    ensures Walk(m, x, MAX_HOPS) == Final(m, x, n) && Walk(m, x, MAX_HOPS) !in m
  {
  }

  /* ---- Compression ---- */

  /** Looking x up rewrites its entry when more than one hop was followed. */
  function Compress(m: map<Url, Url>, x: Url): map<Url, Url> {
    if Hops(m, x, MAX_HOPS) > 1 then m[x := Walk(m, x, MAX_HOPS)] else m
  }

  /** After the lookup of a chain of at most ten entries, the next one takes a single hop, to the same end. */
  lemma CompressShortens(m: map<Url, Url>, x: Url, n: nat)
    requires Ends(m, x, n) && 0 < n <= MAX_HOPS
    ensures Ends(Compress(m, x), x, 1) && Final(Compress(m, x), x, 1) == Final(m, x, n)
  {
    WalkAlong(m, x, n, MAX_HOPS);
    var t, y := Compress(m, x), Walk(m, x, MAX_HOPS);
    assert y !in m && Ends(t, y, 0);
    if n == 1 {
      assert Ends(m, m[x], 0);
    }
  }

  /** A chain that does not pass through x does not notice its entry. */
  lemma {:induction false} Unvisited(m: map<Url, Url>, x: Url, y: Url, w: Url, n: nat)
    requires Ends(m, w, n) && !Visits(m, w, n, x)
    ensures Ends(m[x := y], w, n) && Final(m[x := y], w, n) == Final(m, w, n)
    decreases n
  {
    if n > 0 {
      Unvisited(m, x, y, m[w], n - 1);
    }
  }

  lemma {:induction false} ShorterChainMisses(m: map<Url, Url>, x: Url, n: nat, w: Url, k: nat)
    requires Ends(m, x, n) && Ends(m, w, k) && k < n
    ensures !Visits(m, w, k, x)
    decreases k
  {
    if w == x {
      EndsOnce(m, x, n, k);
    } else if k > 0 {
      ShorterChainMisses(m, x, n, m[w], k - 1);
    }
  }

  /** What a chain has become: no longer, and with the same end. */
  ghost predicate Kept(m: map<Url, Url>, t: map<Url, Url>, z: Url, n: nat)
    requires Ends(m, z, n)
  {
    exists k: nat :: k <= n && Ends(t, z, k) && Final(t, z, k) == Final(m, z, n)
  }

  lemma {:induction false} CompressKeeps(m: map<Url, Url>, x: Url, n: nat, z: Url, k: nat)
    requires Ends(m, x, n) && Ends(m, z, k)
    ensures Kept(m, Compress(m, x), z, k)
    decreases k
  {
    var t, y, h := Compress(m, x), Walk(m, x, MAX_HOPS), Hops(m, x, MAX_HOPS);
    if h <= 1 {
      assert t == m;
    } else if z == x {
      EndsOnce(m, x, n, k);
      WalkAlong(m, x, n, MAX_HOPS);
      ShorterChainMisses(m, x, n, y, n - h);
      Unvisited(m, x, y, y, n - h);
      assert Ends(t, x, n - h + 1);
    } else if k > 0 {
      CompressKeeps(m, x, n, m[z], k - 1);
      var j: nat :| j <= k - 1 && Ends(t, m[z], j) && Final(t, m[z], j) == Final(m, m[z], k - 1);
      assert t[z] == m[z] && Ends(t, z, j + 1);
    } else {
      WalkAlong(m, x, n, MAX_HOPS);
      assert Ends(t, z, 0);
    }
  }

  /**
   On an acyclic map a lookup leaves the end of every key's chain as it was and makes no chain
   longer, whether or not the walk reached the end.
   */
  lemma LookupPreservesTargets(m: map<Url, Url>, x: Url)
    requires Acyclic(m)
    ensures Acyclic(Compress(m, x))
    ensures forall z, k: nat :: Ends(m, z, k) ==> Kept(m, Compress(m, x), z, k)
  {
    assert Terminates(m, x);
    var n: nat :| Ends(m, x, n);
    forall z, k: nat | Ends(m, z, k)
      ensures Kept(m, Compress(m, x), z, k)
    {
      CompressKeeps(m, x, n, z, k);
    }
    forall z
      ensures Terminates(Compress(m, x), z)
    {
      assert Terminates(m, z);
      var k: nat :| Ends(m, z, k);
      assert Kept(m, Compress(m, x), z, k);
    }
  }

  /* ---- New entries ---- */

  /** A response moved `url` to `raw`, which is looked up first; equal places make no entry. */
  function Move(m: map<Url, Url>, url: Url, raw: Url): map<Url, Url> {
    var location := Walk(m, raw, MAX_HOPS);
    if url == location then Compress(m, raw) else Compress(m, raw)[url := location]
  }

  lemma {:induction false} LinkKeepsOthers(m: map<Url, Url>, url: Url, location: Url, z: Url, k: nat)
    requires Ends(m, z, k) && Terminates(m[url := location], url)
    ensures Terminates(m[url := location], z)
    decreases k
  {
    var t := m[url := location];
    if z != url {
      if k == 0 {
        assert Ends(t, z, 0);
      } else {
        LinkKeepsOthers(m, url, location, m[z], k - 1);
        var j: nat :| Ends(t, m[z], j);
        assert Ends(t, z, j + 1);
      }
    }
  }

  /** Where the chain of z passed through url, it still leads there. */
  lemma {:induction false} BackAgain(m: map<Url, Url>, url: Url, location: Url, z: Url, k: nat, n: nat) returns (j: nat)
    requires Ends(m, z, k) && Visits(m, z, k, url) && Ends(m[url := location], z, n)
    ensures j <= n && Ends(m[url := location], url, j)
    decreases k
  {
    if z == url {
      j := n;
    } else {
      j := BackAgain(m, url, location, m[z], k - 1, n - 1);
    }
  }

  /** A new entry closes a cycle exactly when the place it leads to leads back. */
  lemma LinkIsAcyclicIffNoWayBack(m: map<Url, Url>, url: Url, location: Url, n: nat)
    requires Acyclic(m) && Ends(m, location, n)
    ensures Acyclic(m[url := location]) <==> !Visits(m, location, n, url)
  {
    var t := m[url := location];
    if Visits(m, location, n, url) {
      if a: nat :| Ends(t, url, a) {
        var j := BackAgain(m, url, location, location, n, a - 1);
        EndsOnce(t, url, a, j);
      }
      assert !Terminates(t, url);
    } else {
      Unvisited(m, url, location, location, n);
      assert Ends(t, url, n + 1);
      forall z
        ensures Terminates(t, z)
      {
        assert Terminates(m, z);
        var k: nat :| Ends(m, z, k);
        LinkKeepsOthers(m, url, location, z, k);
      }
    }
  }

  /** Exactly when following a move keeps the map acyclic. */
  lemma MoveIsAcyclicIff(m: map<Url, Url>, url: Url, raw: Url, n: nat)
    requires Acyclic(m) && Ends(Compress(m, raw), Walk(m, raw, MAX_HOPS), n)
    ensures var location := Walk(m, raw, MAX_HOPS);
            Acyclic(Move(m, url, raw)) <==> url == location || !Visits(Compress(m, raw), location, n, url)
  {
    LookupPreservesTargets(m, raw);
    LinkIsAcyclicIffNoWayBack(Compress(m, raw), url, Walk(m, raw, MAX_HOPS), n);
  }

  lemma ResolvedStaysLast(m: map<Url, Url>, raw: Url)
    requires Acyclic(m) && Walk(m, raw, MAX_HOPS) !in m
    ensures Walk(m, raw, MAX_HOPS) !in Compress(m, raw)
  {
  }

  /** In particular when the lookup got to the end of the chain, as it does within ten hops. */
  lemma ResolvedMoveIsAcyclic(m: map<Url, Url>, url: Url, raw: Url)
    requires Acyclic(m) && Walk(m, raw, MAX_HOPS) !in m
    ensures Acyclic(Move(m, url, raw))
  {
    var y := Walk(m, raw, MAX_HOPS);
    ResolvedStaysLast(m, raw);
    assert Ends(Compress(m, raw), y, 0);
    MoveIsAcyclicIff(m, url, raw, 0);
    assert Visits(Compress(m, raw), y, 0, url) <==> y == url;
  }

  /* ---- Expiry ---- */

  lemma {:induction false} ExpiryShortens(m: map<Url, Url>, gone: set<Url>, z: Url, k: nat) returns (j: nat)
    requires Ends(m, z, k)
    ensures j <= k && Ends(m - gone, z, j)
    decreases k
  {
    if z !in m - gone {
      j := 0;
    } else {
      var i := ExpiryShortens(m, gone, m[z], k - 1);
      j := i + 1;
    }
  }

  lemma ExpiryKeepsAcyclic(m: map<Url, Url>, gone: set<Url>)
    requires Acyclic(m)
    ensures Acyclic(m - gone)
  {
    forall z
      ensures Terminates(m - gone, z)
    {
      assert Terminates(m, z);
      var k: nat :| Ends(m, z, k);
      var j := ExpiryShortens(m, gone, z, k);
    }
  }

  /* ---- Whole histories, one request at a time ---- */

  datatype Event = Lookup(url: Url) | Moved(url: Url, raw: Url) | Expire(gone: set<Url>)

  function Next(m: map<Url, Url>, e: Event): map<Url, Url> {
    match e
    case Lookup(url) => Compress(m, url)
    case Moved(url, raw) => Move(m, url, raw)
    case Expire(gone) => m - gone
  }

  function History(m: map<Url, Url>, events: seq<Event>): map<Url, Url>
    decreases |events|
  {
    if events == [] then m else History(Next(m, events[0]), events[1..])
  }

  /** No redirection met a chain of more than ten entries. */
  predicate AllResolved(m: map<Url, Url>, events: seq<Event>)
    decreases |events|
  {
    events == [] ||
    ((events[0].Moved? ==> Walk(m, events[0].raw, MAX_HOPS) !in m) && AllResolved(Next(m, events[0]), events[1..]))
  }

  lemma {:induction false} HistoryStaysAcyclic(m: map<Url, Url>, events: seq<Event>)
    requires Acyclic(m) && AllResolved(m, events)
    ensures Acyclic(History(m, events))
    decreases |events|
  {
    if events != [] {
      match events[0] {
        case Lookup(url) => LookupPreservesTargets(m, url);
        case Moved(url, raw) => ResolvedMoveIsAcyclic(m, url, raw);
        case Expire(gone) => ExpiryKeepsAcyclic(m, gone);
      }
      HistoryStaysAcyclic(Next(m, events[0]), events[1..]);
    }
  }

  /* ---- A history that closes a cycle ---- */

  /** A chain of `n` entries. */
  function Line(n: nat): map<Url, Url> { map u | u in (set i: nat | i < n :: Url(i)) :: Url(u.id + 1) }

  /** Each place moved to the next one. */
  function Moves(n: nat): seq<Event> { seq(n, i requires 0 <= i < n => Moved(Url(i), Url(i + 1))) }

  lemma {:induction false} HistoryPush(m: map<Url, Url>, events: seq<Event>, e: Event)
    ensures History(m, events + [e]) == Next(History(m, events), e)
    decreases |events|
  {
    if events == [] {
      assert events + [e] == [e] && [e][1..] == [];
    } else {
      assert (events + [e])[1..] == events[1..] + [e];
      HistoryPush(Next(m, events[0]), events[1..], e);
    }
  }

  lemma {:induction false} MovesMakeALine(n: nat)
    ensures History(map[], Moves(n)) == Line(n)
  {
    if n == 0 {
      assert Moves(n) == [] && Line(n) == map[];
    } else {
      MovesMakeALine(n - 1);
      assert Moves(n) == Moves(n - 1) + [Moved(Url(n - 1), Url(n))];
      HistoryPush(map[], Moves(n - 1), Moved(Url(n - 1), Url(n)));
      assert Url(n) !in Line(n - 1);
      assert Line(n - 1)[Url(n - 1) := Url(n)] == Line(n);
    }
  }

  lemma {:induction false} LineEnds(n: nat, i: nat)
    requires i <= n
    ensures Ends(Line(n), Url(i), n - i) && Visits(Line(n), Url(i), n - i, Url(n))
    decreases n - i
  {
    if i < n {
      LineEnds(n, i + 1);
    }
  }

  lemma {:induction false} LineWalks(n: nat, i: nat, hops: nat)
    requires i + hops <= n
    ensures Walk(Line(n), Url(i), hops) == Url(i + hops) && Hops(Line(n), Url(i), hops) == hops
    decreases hops
  {
    if hops > 0 {
      LineWalks(n, i + 1, hops - 1);
    }
  }

  lemma LineIsAcyclic(n: nat)
    ensures Acyclic(Line(n))
  {
    forall x
      ensures Terminates(Line(n), x)
    {
      if x in Line(n) {
        LineEnds(n, x.id);
      } else {
        assert Ends(Line(n), x, 0);
      }
    }
  }

  /**
   Eleven moves along a line of places and a twelfth from its last place back to its first: ten
   hops from the first place stop one short of the last, and the new entry closes a cycle.
   */
  lemma TwelveMovesCloseACycle()
    ensures Acyclic(History(map[], Moves(11)))
    ensures !Acyclic(History(map[], Moves(11) + [Moved(Url(11), Url(0))]))
  {
    MovesMakeALine(11);
    LineIsAcyclic(11);
    HistoryPush(map[], Moves(11), Moved(Url(11), Url(0)));
    LineWalks(11, 0, MAX_HOPS);
    LastLeadsBack(Compress(Line(11), Url(0)));
    MoveIsAcyclicIff(Line(11), Url(11), Url(0), 1);
  }

  lemma LastLeadsBack(t: map<Url, Url>)
    requires t == Line(11)[Url(0) := Url(10)]
    ensures Ends(t, Url(10), 1) && Visits(t, Url(10), 1, Url(11))
  {
  }

  /* ---- The gateway's code ---- */

  datatype Redirect = Redirect(target: Url, timeout: int)

  function Targets(entries: map<Url, Redirect>): map<Url, Url> { map k | k in entries :: entries[k].target }

  lemma {:induction false} WalkOneMore(m: map<Url, Url>, x: Url, n: nat)
    requires Hops(m, x, n) == n && Walk(m, x, n) in m
    ensures Walk(m, x, n + 1) == m[Walk(m, x, n)] && Hops(m, x, n + 1) == n + 1
    decreases n
  {
    if n > 0 {
      WalkOneMore(m, m[x], n - 1);
    }
  }

  lemma {:induction false} WalkStops(m: map<Url, Url>, x: Url, n: nat, most: nat)
    requires n <= most && Hops(m, x, n) == n && (Walk(m, x, n) !in m || n == most)
    ensures Walk(m, x, most) == Walk(m, x, n) && Hops(m, x, most) == n
    decreases n
  {
    if n > 0 {
      WalkStops(m, m[x], n - 1, most - 1);
    }
  }

  /* ---- Moves to another host ---- */

  /** What a URL names: whether it can be asked for, its host, and the rest, which is only compared for equality. */
  datatype Parts = Parts(supported: bool, host: Url, resource: nat)

  /** A resource that moves to another host under the same name moves the whole host, which is not looked up. */
  function MoveHost(hosts: map<Url, Url>, host: Url, target: Url): map<Url, Url> {
    if target == host then hosts else hosts[host := target]
  }

  /** Exactly when that keeps the map of hosts acyclic: the new host does not lead back. */
  lemma HostMoveIsAcyclicIff(hosts: map<Url, Url>, host: Url, target: Url, n: nat)
    requires Acyclic(hosts) && Ends(hosts, target, n)
    ensures Acyclic(MoveHost(hosts, host, target)) <==> host == target || !Visits(hosts, target, n, host)
  {
    LinkIsAcyclicIffNoWayBack(hosts, host, target, n);
  }

  /** Two hosts that refer to each other close a cycle with two moves. */
  lemma TwoHostMovesCloseACycle(a: Url, b: Url)
    requires a != b
    ensures Acyclic(MoveHost(map[], a, b)) && !Acyclic(MoveHost(MoveHost(map[], a, b), b, a))
  {
    var none: map<Url, Url> := map[];
    assert Acyclic(none) by {
      forall x ensures Terminates(none, x) { assert Ends(none, x, 0); }
    }
    assert Ends(none, b, 0);
    HostMoveIsAcyclicIff(none, a, b, 0);
    var one := MoveHost(none, a, b);
    assert Ends(one, b, 0) && Ends(one, a, 1);
    assert Visits(one, a, 1, b);
    HostMoveIsAcyclicIff(one, b, a, 1);
  }

  /** What a response that moved the resource does to the map of URLs. */
  function AfterMove(m: map<Url, Url>, parse: Url -> Parts, url: Url, raw: Url, permanent: bool): map<Url, Url> {
    var place := parse(Walk(m, raw, MAX_HOPS));
    Next(m, if place.supported && permanent && place.resource != parse(url).resource then Moved(url, raw) else Lookup(raw))
  }

  /** And to the map of hosts; `host` is the one that was asked. */
  function HostsAfterMove(hosts: map<Url, Url>, m: map<Url, Url>, parse: Url -> Parts, url: Url, raw: Url, permanent: bool, host: Url): map<Url, Url> {
    var place := parse(Walk(m, raw, MAX_HOPS));
    if place.supported && permanent && place.resource == parse(url).resource then MoveHost(hosts, host, place.host) else hosts
  }

  class HttpGateway {
    const parse: Url -> Parts
    var urlRedirects: map<Url, Redirect>
    var queueRedirects: map<Url, Redirect>

    ghost function View(): map<Url, Url>
      reads this
    {
      Targets(urlRedirects)
    }

    ghost function Hosts(): map<Url, Url>
      reads this
    {
      Targets(queueRedirects)
    }

    constructor (urlparse: Url -> Parts)
      ensures View() == map[] && Hosts() == map[] && parse == urlparse
    {
      parse, urlRedirects, queueRedirects := urlparse, map[], map[];
    }

    /** Follows entries, ten at most, and shortens the key's own entry. */
    static method Follow(input: Url, entries: map<Url, Redirect>) returns (arg: Url, later: map<Url, Redirect>)
      ensures arg == Walk(Targets(entries), input, MAX_HOPS)
      ensures Targets(later) == Compress(Targets(entries), input)
    {
      var redirects := 0;
      arg, later := input, entries;
      ghost var m := Targets(entries);
      while arg in entries && redirects < 10
        invariant redirects <= MAX_HOPS && arg == Walk(m, input, redirects) && Hops(m, input, redirects) == redirects
        decreases MAX_HOPS - redirects
      {
        WalkOneMore(m, input, redirects);
        arg := entries[arg].target;
        redirects := redirects + 1;
      }
      WalkStops(m, input, redirects, MAX_HOPS);
      if redirects > 1 {
        assert Hops(m, input, redirects) > 0;
        later := entries[input := entries[input].(target := arg)];
        assert Targets(later) == m[input := arg];
      }
    }

    method ProcessUrl(input: Url) returns (url: Url)
      modifies this`urlRedirects
      ensures url == Walk(old(View()), input, MAX_HOPS)
      ensures View() == Next(old(View()), Lookup(input))
    {
      var later;
      url, later := Follow(input, urlRedirects);
      urlRedirects := later;
    }

    method ProcessQueueId(input: Url) returns (host: Url)
      modifies this`queueRedirects
      ensures host == Walk(old(Hosts()), input, MAX_HOPS)
      ensures Hosts() == Next(old(Hosts()), Lookup(input))
    {
      var later;
      host, later := Follow(input, queueRedirects);
      queueRedirects := later;
    }

    /**
     A response says that the resource moved. `raw` is where to, if it says so, and `timeout` is how
     long the move may be remembered, if at all; `host` is the host that was asked.
     */
    method FollowMove(url: Url, host: Url, raw: Option<Url>, timeout: Option<int>) returns (location: Url)
      modifies this`urlRedirects, this`queueRedirects
      ensures raw.None? ==> location == url && View() == old(View()) && Hosts() == old(Hosts())
      ensures raw.Some? ==>
                var place := Walk(old(View()), raw.value, MAX_HOPS);
                && location == (if parse(place).supported then place else url)
                && View() == AfterMove(old(View()), parse, url, raw.value, timeout.Some?)
                && Hosts() == HostsAfterMove(old(Hosts()), old(View()), parse, url, raw.value, timeout.Some?, host)
      ensures raw.Some? ==>
                var place := Walk(old(View()), raw.value, MAX_HOPS);
                var remembered, sameResource := timeout.Some? && parse(place).supported, parse(place).resource == parse(url).resource;
                && (remembered && !sameResource && url != place ==> url in View() && View()[url] == place)
                && (remembered && sameResource && host != parse(place).host ==> Hosts() == old(Hosts())[host := parse(place).host])
                && (!remembered || !sameResource || host == parse(place).host ==> Hosts() == old(Hosts()))
                && (!remembered || sameResource ==> View().Keys == old(View()).Keys)
    {
      if raw.None? {
        return url;
      }
      location := ProcessUrl(raw.value);
      ghost var m, hosts := View(), Hosts();
      if !parse(location).supported {
        return url;
      }
      if timeout.Some? {
        if parse(location).resource == parse(url).resource {
          var target := parse(location).host;
          if target != host {
            queueRedirects := queueRedirects[host := Redirect(target, timeout.value)];
            assert Hosts() == hosts[host := target];
          }
        } else if url != location {
          urlRedirects := urlRedirects[url := Redirect(location, timeout.value)];
          assert View() == m[url := location];
        }
      }
    }

    /** Copies what has not expired, and says whether something has. */
    static method FillRedirectsSwap(now: int, redirects: map<Url, Redirect>) returns (swap: map<Url, Redirect>, changed: bool)
      ensures swap == map k | k in redirects && now <= redirects[k].timeout :: redirects[k]
      ensures changed <==> swap != redirects
    {
      swap := map[];
      var rest := redirects.Keys;
      while rest != {}
        invariant rest <= redirects.Keys
        invariant forall k :: k in swap <==> k in redirects.Keys - rest && now <= redirects[k].timeout
        invariant forall k :: k in swap ==> swap[k] == redirects[k]
        decreases rest
      {
        var k :| k in rest;
        if !(now > redirects[k].timeout) {
          swap := swap[k := redirects[k]];
        }
        rest := rest - {k};
      }
      changed := |redirects| != |swap|;
      if !changed {
        SmallerSubset(swap.Keys, redirects.Keys);
      }
    }

    /** Both maps lose exactly what has expired. */
    method CleanTimeoutRedirects(now: int)
      modifies this`urlRedirects, this`queueRedirects
      ensures View() == Next(old(View()), Expire(Expired(old(urlRedirects), now)))
      ensures Hosts() == Next(old(Hosts()), Expire(Expired(old(queueRedirects), now)))
    {
      var swap, changed := FillRedirectsSwap(now, queueRedirects);
      if changed {
        queueRedirects := swap;
      }
      swap, changed := FillRedirectsSwap(now, urlRedirects);
      if changed {
        urlRedirects := swap;
      }
    }
  }

  function Expired(entries: map<Url, Redirect>, now: int): set<Url> { set k | k in entries && now > entries[k].timeout }
}
