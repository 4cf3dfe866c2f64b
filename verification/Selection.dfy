/** Choosing an endpoint: healthy ones first, then available ones, then a bounded number of
    further rounds, then anything. */
module Selection {
  import opened Wrappers
  import opened Endpoints

  datatype Candidate = Candidate(addr: string, status: Status)

  // An upstream as one round sees it: with an address of its own, or resolved to endpoints.
  datatype Source = Fixed(own: Candidate) | Resolved(endpoints: seq<Candidate>)

  function Offers(u: Source): seq<Candidate> {
    match u
    case Fixed(own) => [own]
    case Resolved(endpoints) => endpoints
  }

  // What a round offers apart from the excluded address, in the order of the upstreams' keys.
  function Candidates(round: seq<Source>, exclude: string): seq<Candidate> {
    if round == [] then []
    else Candidates(round[..|round| - 1], exclude) + Without(Offers(round[|round| - 1]), exclude)
  }

  function Without(cs: seq<Candidate>, exclude: string): seq<Candidate> {
    if cs == [] then []
    else Without(cs[..|cs| - 1], exclude) + if cs[|cs| - 1].addr == exclude then [] else [cs[|cs| - 1]]
  }

  function WithStatus(cs: seq<Candidate>, status: Status): seq<string> {
    if cs == [] then []
    else WithStatus(cs[..|cs| - 1], status) + if cs[|cs| - 1].status == status then [cs[|cs| - 1].addr] else []
  }

  function Reverse(s: seq<string>): seq<string> {
    if s == [] then [] else [s[|s| - 1]] + Reverse(s[..|s| - 1])
  }

  function Addresses(cs: seq<Candidate>): seq<string> { seq(|cs|, i requires 0 <= i < |cs| => cs[i].addr) }

  // Built by prepending the healthy and appending the available.
  function Rating(cs: seq<Candidate>): seq<string> {
    Reverse(WithStatus(cs, Healthy)) + WithStatus(cs, Available)
  }

  // The local variables of GetEndpoint.
  datatype Tally = Tally(rating: seq<string>, all: seq<string>, healthyCount: nat, availableCount: nat)

  // What it does with one address that is not excluded.
  function Tallied(t: Tally, c: Candidate): Tally {
    var t' := t.(all := t.all + [c.addr]);
    match c.status
    case Healthy =>
      t'.(healthyCount := t.healthyCount + 1, availableCount := t.availableCount + 1, rating := [c.addr] + t.rating)
    case Available =>
      t'.(availableCount := t.availableCount + 1, rating := t.rating + [c.addr])
    case _ => t'
  }

  ghost predicate Counts(t: Tally, cs: seq<Candidate>) {
    t == Tally(Rating(cs), Addresses(cs), |WithStatus(cs, Healthy)|, |Rating(cs)|)
  }

  lemma TalliedCounts(t: Tally, cs: seq<Candidate>, c: Candidate)
    requires Counts(t, cs)
    ensures Counts(Tallied(t, c), cs + [c])
  {
    assert (cs + [c])[..|cs|] == cs;
    var healthy := WithStatus(cs, Healthy);
    assert (healthy + [c.addr])[..|healthy|] == healthy;
    assert WithStatus(cs, Healthy) + [] == WithStatus(cs, Healthy);
    assert WithStatus(cs, Available) + [] == WithStatus(cs, Available);
    assert Addresses(cs + [c]) == Addresses(cs) + [c.addr];
    if c.status == Healthy {
      assert [c.addr] + Reverse(healthy) + WithStatus(cs, Available) ==
          [c.addr] + (Reverse(healthy) + WithStatus(cs, Available));
    }
  }

  // The loops that build the rating.
  method Rate(round: seq<Source>, exclude: string) returns (t: Tally)
    ensures Counts(t, Candidates(round, exclude))
  {
    t := Tally([], [], 0, 0);
    for k := 0 to |round|
      invariant Counts(t, Candidates(round[..k], exclude))
    {
      t := RateOffers(t, Offers(round[k]), exclude, Candidates(round[..k], exclude));
      assert round[..k + 1][..k] == round[..k];
    }
    assert round[..|round|] == round;
  }

  method RateOffers(before: Tally, offers: seq<Candidate>, exclude: string, ghost cs: seq<Candidate>) returns (t: Tally)
    requires Counts(before, cs)
    ensures Counts(t, cs + Without(offers, exclude))
  {
    t := before;
    assert cs + [] == cs;
    for j := 0 to |offers|
      invariant Counts(t, cs + Without(offers[..j], exclude))
    {
      ghost var sofar := Without(offers[..j], exclude);
      assert offers[..j + 1][..j] == offers[..j];
      if offers[j].addr == exclude {
        assert sofar + [] == sofar;
        continue;
      }
      TalliedCounts(t, cs + sofar, offers[j]);
      t := Tallied(t, offers[j]);
      assert cs + sofar + [offers[j]] == cs + (sofar + [offers[j]]);
    }
    assert offers[..|offers|] == offers;
  }

  datatype NoAddress = NoAddress

  // rand.Intn(n): every value below n, as `random` varies.
  function Intn(n: nat, random: nat): (k: nat)
    requires n > 0
    ensures k < n
  {
    if random < n then random else 0
  }

  // What one round decides, if anything; the last one takes any address.
  function Picked(cs: seq<Candidate>, last: bool, random: nat): Option<Result<string, NoAddress>> {
    var healthy, rating := WithStatus(cs, Healthy), Rating(cs);
    RatingSplits(cs);
    if healthy != [] then Some(Success(rating[Intn(|healthy|, random)]))
    else if rating != [] then Some(Success(rating[Intn(|rating|, random)]))
    else if !last then None
    else if cs != [] then Some(Success(cs[Intn(|cs|, random)].addr))
    else Some(Failure(NoAddress))
  }

  method Pick(t: Tally, last: bool, random: nat, ghost cs: seq<Candidate>)
    returns (r: Option<Result<string, NoAddress>>)
    requires Counts(t, cs)
    ensures r == Picked(cs, last, random)
  {
    RatingSplits(cs);
    if t.healthyCount != 0 {
      return Some(Success(t.rating[Intn(t.healthyCount, random)]));
    }
    if t.availableCount != 0 {
      return Some(Success(t.rating[Intn(t.availableCount, random)]));
    }
    if !last {
      return None;
    }
    if |t.all| == 0 {
      return Some(Failure(NoAddress));
    }
    return Some(Success(t.all[Intn(|t.all|, random)]));
  }

  // `rounds[i]` is what the upstreams look like now, the later ones what they look like after
  // each wait.  Only the first call leaves out an address.
  method GetEndpoint(rounds: seq<seq<Source>>, i: nat, exclude: string, tries: int, random: nat)
    returns (r: Result<string, NoAddress>)
    requires i < |rounds| && i + tries < |rounds|
    ensures r == Chosen(rounds, i, exclude, tries, random)
    decreases |rounds| - i
  {
    var t := Rate(rounds[i], exclude);
    var picked := Pick(t, tries <= 0, random, Candidates(rounds[i], exclude));
    match picked
    case Some(address) =>
      return address;
    case None =>
      r := GetEndpoint(rounds, i + 1, "", tries - 1, random);
  }

  function Chosen(rounds: seq<seq<Source>>, i: nat, exclude: string, tries: int, random: nat): Result<string, NoAddress>
    requires i < |rounds| && i + tries < |rounds|
    decreases |rounds| - i
  {
    match Picked(Candidates(rounds[i], exclude), tries <= 0, random)
    case Some(r) => r
    case None => Chosen(rounds, i + 1, "", tries - 1, random)
  }

  lemma {:induction false} ReverseKeeps(s: seq<string>)
    ensures |Reverse(s)| == |s| && forall x :: x in Reverse(s) <==> x in s
    ensures forall j :: 0 <= j < |s| ==> Reverse(s)[j] == s[|s| - 1 - j]
  {
    if s != [] {
      ReverseKeeps(s[..|s| - 1]);
      assert s == s[..|s| - 1] + [s[|s| - 1]];
    }
  }

  // The rating is all healthy endpoints, the last one first, followed by all merely available
  // ones, split at the number of healthy ones.
  lemma RatingSplits(cs: seq<Candidate>)
    ensures var h := |WithStatus(cs, Healthy)|;
      && h <= |Rating(cs)|
      && (forall x :: x in Rating(cs)[..h] <==> x in WithStatus(cs, Healthy))
      && (forall j :: 0 <= j < h ==> Rating(cs)[j] == WithStatus(cs, Healthy)[h - 1 - j])
      && Rating(cs)[h..] == WithStatus(cs, Available)
  {
    ReverseKeeps(WithStatus(cs, Healthy));
    assert Rating(cs)[..|WithStatus(cs, Healthy)|] == Reverse(WithStatus(cs, Healthy));
  }

  /* ---------- what is chosen ---------- */

  ghost predicate Offered(round: seq<Source>, addr: string, status: Status) {
    exists u :: 0 <= u < |round| && Has(round[u], Candidate(addr, status))
  }

  predicate Has(u: Source, c: Candidate) {
    (u.Fixed? && u.own == c) || (u.Resolved? && c in u.endpoints)
  }

  lemma {:induction false} WithoutKeeps(cs: seq<Candidate>, exclude: string)
    ensures forall c :: c in Without(cs, exclude) <==> c in cs && c.addr != exclude
  {
    if cs != [] {
      WithoutKeeps(cs[..|cs| - 1], exclude);
      assert cs == cs[..|cs| - 1] + [cs[|cs| - 1]];
    }
  }

  lemma {:induction false} CandidatesAre(round: seq<Source>, exclude: string)
    ensures forall c :: c in Candidates(round, exclude) <==> Offered(round, c.addr, c.status) && c.addr != exclude
  {
    if round != [] {
      var front, last := round[..|round| - 1], round[|round| - 1];
      CandidatesAre(front, exclude);
      WithoutKeeps(Offers(last), exclude);
      forall c: Candidate
        ensures Offered(round, c.addr, c.status) <==> Offered(front, c.addr, c.status) || c in Offers(last)
      {
        if Offered(front, c.addr, c.status) {
          var u :| 0 <= u < |front| && Has(front[u], Candidate(c.addr, c.status));
          assert Has(round[u], Candidate(c.addr, c.status));
        }
        if c in Offers(last) {
          assert Has(round[|round| - 1], Candidate(c.addr, c.status));
        }
      }
    }
  }

  lemma {:induction false} WithStatusIs(cs: seq<Candidate>, status: Status)
    ensures forall x :: x in WithStatus(cs, status) <==> Candidate(x, status) in cs
  {
    if cs != [] {
      WithStatusIs(cs[..|cs| - 1], status);
      assert cs == cs[..|cs| - 1] + [cs[|cs| - 1]];
    }
  }

  // Some upstream can be used in this round.
  ghost predicate Live(round: seq<Source>, exclude: string) {
    exists x :: x != exclude && (Offered(round, x, Healthy) || Offered(round, x, Available))
  }

  lemma StatusOffered(round: seq<Source>, exclude: string, status: Status)
    ensures forall x :: x in WithStatus(Candidates(round, exclude), status) <==>
        x != exclude && Offered(round, x, status)
  {
    CandidatesAre(round, exclude);
    WithStatusIs(Candidates(round, exclude), status);
  }

  lemma LiveMeansRated(round: seq<Source>, exclude: string)
    ensures Live(round, exclude) <==> Rating(Candidates(round, exclude)) != []
  {
    var cs := Candidates(round, exclude);
    var healthy, available := WithStatus(cs, Healthy), WithStatus(cs, Available);
    StatusOffered(round, exclude, Healthy);
    StatusOffered(round, exclude, Available);
    ReverseKeeps(healthy);
    if healthy != [] {
      assert healthy[0] in healthy;
    } else if available != [] {
      assert available[0] in available;
    } else {
      assert forall x :: x !in healthy && x !in available;
    }
  }

  // In a round with a usable endpoint the search ends: with a healthy endpoint if there is one,
  // otherwise with an available one, and never with the excluded one.
  lemma LiveRoundDecides(rounds: seq<seq<Source>>, i: nat, exclude: string, tries: int, random: nat)
    requires i < |rounds| && i + tries < |rounds| && Live(rounds[i], exclude)
    ensures var r := Chosen(rounds, i, exclude, tries, random);
      && r.Success? && r.value != exclude
      && if exists x :: x != exclude && Offered(rounds[i], x, Healthy) then Offered(rounds[i], r.value, Healthy)
         else Offered(rounds[i], r.value, Available)
  {
    var cs := Candidates(rounds[i], exclude);
    LiveMeansRated(rounds[i], exclude);
    StatusOffered(rounds[i], exclude, Healthy);
    StatusOffered(rounds[i], exclude, Available);
    RatingSplits(cs);
    var healthy, rating := WithStatus(cs, Healthy), Rating(cs);
    if healthy != [] {
      assert healthy[0] in healthy;
      assert rating[Intn(|healthy|, random)] in rating[..|healthy|];
    } else {
      assert forall x :: x !in healthy;
      assert rating[Intn(|rating|, random)] in rating[0..];
    }
  }

  // After the last wait any address but the excluded one will do, and the search fails only if
  // there is none.
  lemma LastRoundTakesAnything(rounds: seq<seq<Source>>, i: nat, exclude: string, tries: int, random: nat)
    requires i < |rounds| && i + tries < |rounds| && !Live(rounds[i], exclude) && tries <= 0
    ensures match Chosen(rounds, i, exclude, tries, random)
      case Success(addr) => addr != exclude && exists st :: Offered(rounds[i], addr, st)
      case Failure(_) => forall x, st :: Offered(rounds[i], x, st) ==> x == exclude
  {
    var cs := Candidates(rounds[i], exclude);
    LiveMeansRated(rounds[i], exclude);
    CandidatesAre(rounds[i], exclude);
    RatingSplits(cs);
    if cs != [] {
      var c := cs[Intn(|cs|, random)];
      assert c in cs;
      assert Offered(rounds[i], c.addr, c.status);
    } else {
      forall x, st | Offered(rounds[i], x, st) ensures x == exclude {
        assert Candidate(x, st) !in cs;
      }
    }
  }

  // A round without a usable endpoint hands over to the next one, which excludes nothing.
  lemma PassesOn(rounds: seq<seq<Source>>, i: nat, exclude: string, tries: int, random: nat)
    requires i < |rounds| && i + tries < |rounds| && !Live(rounds[i], exclude) && tries > 0
    ensures Chosen(rounds, i, exclude, tries, random) == Chosen(rounds, i + 1, "", tries - 1, random)
  {
    LiveMeansRated(rounds[i], exclude);
    RatingSplits(Candidates(rounds[i], exclude));
  }

  // What the search leaves out in round j if it started with round i.
  function Excluded(exclude: string, i: nat, j: nat): string { if j == i then exclude else "" }

  // Round j of a search that started with round i has an endpoint it may use.
  ghost predicate LiveAt(rounds: seq<seq<Source>>, j: nat, exclude: string, i: nat)
    requires j < |rounds|
  {
    Live(rounds[j], Excluded(exclude, i, j))
  }

  lemma LaterAlike(rounds: seq<seq<Source>>, j: nat, exclude: string, i: nat)
    requires i < j < |rounds|
    ensures LiveAt(rounds, j, "", i + 1) <==> LiveAt(rounds, j, exclude, i)
  {
  }

  // What is chosen if the search gets as far as round k.
  function ChosenAfter(rounds: seq<seq<Source>>, i: nat, exclude: string, tries: int, random: nat, k: nat)
    : Result<string, NoAddress>
    requires i <= k < |rounds| && i + tries < |rounds|
  {
    Chosen(rounds, k, Excluded(exclude, i, k), tries - (k - i), random)
  }

  lemma ChosenLater(rounds: seq<seq<Source>>, i: nat, exclude: string, tries: int, random: nat, k: nat)
    requires i < k < |rounds| && i + tries < |rounds|
    ensures ChosenAfter(rounds, i + 1, "", tries - 1, random, k) == ChosenAfter(rounds, i, exclude, tries, random, k)
  {
  }

  // The search that starts with round i ends after at most `tries` waits, in the first round with
  // a usable endpoint or in the last one.  After the first wait nothing is excluded any more.
  lemma {:induction false} SearchEnds(rounds: seq<seq<Source>>, i: nat, exclude: string, tries: int, random: nat)
    returns (k: nat)
    requires i < |rounds| && i + tries < |rounds|
    ensures i <= k < |rounds| && k <= (if tries > 0 then i + tries else i)
    ensures forall j :: i <= j < k ==> !LiveAt(rounds, j, exclude, i)
    ensures LiveAt(rounds, k, exclude, i) || k >= i + tries
    ensures Chosen(rounds, i, exclude, tries, random) == ChosenAfter(rounds, i, exclude, tries, random, k)
    decreases |rounds| - i
  {
    if LiveAt(rounds, i, exclude, i) || tries <= 0 {
      k := i;
    } else {
      PassesOn(rounds, i, exclude, tries, random);
      k := SearchEnds(rounds, i + 1, "", tries - 1, random);
      ChosenLater(rounds, i, exclude, tries, random, k);
      forall j | i < j < |rounds| ensures LiveAt(rounds, j, "", i + 1) <==> LiveAt(rounds, j, exclude, i) {
        LaterAlike(rounds, j, exclude, i);
      }
    }
  }

  // Whether the search is safe from returning the excluded address can be told from the first
  // round alone: it is if and only if that round has a usable endpoint or there is no other.
  lemma ExclusionHoldsIff(round: seq<Source>, exclude: string, tries: int)
    requires exclude != ""
    ensures (forall later, random :: |later| >= tries ==>
              Chosen([round] + later, 0, exclude, tries, random) != Success(exclude))
            <==> tries <= 0 || Live(round, exclude)
  {
    if tries <= 0 || Live(round, exclude) {
      forall later, random | |later| >= tries
        ensures Chosen([round] + later, 0, exclude, tries, random) != Success(exclude)
      {
        if Live(round, exclude) {
          LiveRoundDecides([round] + later, 0, exclude, tries, random);
        } else {
          LastRoundTakesAnything([round] + later, 0, exclude, tries, random);
        }
      }
    } else {
      var later := ExcludedRecovers(round, exclude, tries);
    }
  }

  // Otherwise it comes back if it alone has recovered by the second round.
  lemma ExcludedRecovers(round: seq<Source>, exclude: string, tries: int) returns (later: seq<seq<Source>>)
    requires exclude != "" && tries > 0 && !Live(round, exclude)
    ensures |later| >= tries && Chosen([round] + later, 0, exclude, tries, 0) == Success(exclude)
  {
    var up := [Fixed(Candidate(exclude, Healthy))];
    later := seq(tries, _ => up);
    PassesOn([round] + later, 0, exclude, tries, 0);
    assert ([round] + later)[1] == up && Has(up[0], Candidate(exclude, Healthy));
    assert Offered(up, exclude, Healthy);
    LiveRoundDecides([round] + later, 1, "", tries - 1, 0);
  }

  // Every healthy endpoint of the round can be the one chosen.
  lemma EveryHealthyOneCanBeChosen(rounds: seq<seq<Source>>, i: nat, exclude: string, tries: int, addr: string)
    returns (random: nat)
    requires i < |rounds| && i + tries < |rounds| && addr != exclude && Offered(rounds[i], addr, Healthy)
    ensures Chosen(rounds, i, exclude, tries, random) == Success(addr)
  {
    var cs := Candidates(rounds[i], exclude);
    StatusOffered(rounds[i], exclude, Healthy);
    RatingSplits(cs);
    var front := Rating(cs)[..|WithStatus(cs, Healthy)|];
    assert addr in front;
    random := IndexOf(front, addr);
  }

  lemma SomeElement(s: seq<string>)
    ensures s == [] || exists x :: x in s
  {
    if s != [] { assert s[0] in s; }
  }

  // ... and every available one, if none is healthy; and any address at all in the last round
  // if none is available either.
  lemma EveryAvailableOneCanBeChosen(rounds: seq<seq<Source>>, i: nat, exclude: string, tries: int, addr: string)
    returns (random: nat)
    requires i < |rounds| && i + tries < |rounds| && addr != exclude && Offered(rounds[i], addr, Available)
    requires forall x :: x != exclude ==> !Offered(rounds[i], x, Healthy)
    ensures Chosen(rounds, i, exclude, tries, random) == Success(addr)
  {
    var cs := Candidates(rounds[i], exclude);
    StatusOffered(rounds[i], exclude, Healthy);
    StatusOffered(rounds[i], exclude, Available);
    RatingSplits(cs);
    var rating := Rating(cs);
    SomeElement(WithStatus(cs, Healthy));
    assert rating[0..] == rating && addr in rating;
    random := IndexOf(rating, addr);
  }

  lemma AnyAddressCanBeChosen(rounds: seq<seq<Source>>, i: nat, exclude: string, tries: int, addr: string,
                              status: Status)
    returns (random: nat)
    requires i < |rounds| && i + tries < |rounds| && addr != exclude && Offered(rounds[i], addr, status)
    requires !Live(rounds[i], exclude) && tries <= 0
    ensures Chosen(rounds, i, exclude, tries, random) == Success(addr)
  {
    var cs := Candidates(rounds[i], exclude);
    LiveMeansRated(rounds[i], exclude);
    CandidatesAre(rounds[i], exclude);
    RatingSplits(cs);
    assert Candidate(addr, status) in cs;
    random :| 0 <= random < |cs| && cs[random] == Candidate(addr, status);
  }

  function IndexOf(s: seq<string>, x: string): (i: nat)
    requires x in s
    ensures i < |s| && s[i] == x
  {
    if s[0] == x then 0 else 1 + IndexOf(s[1..], x)
  }
}
