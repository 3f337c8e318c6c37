/** The lite-agent registrar: its list of base URLs, the sticky sender with its retry rounds,
    and the heartbeat schedule. */
module AgentRegistrar {
  import opened Wrappers

  const ROUNDS: nat := 8

  // ---- The base URLs ----------------------------------------------------------------------

  ghost predicate Distinct(urls: seq<string>) {
    forall i, j :: 0 <= i < j < |urls| ==> urls[i] != urls[j]
  }

  /** The URL's first position in the list. */
  ghost predicate FirstAt(urls: seq<string>, u: string, i: int) {
    0 <= i < |urls| && urls[i] == u && u !in urls[..i]
  }

  /** `sub` lists the distinct members of `all` in the order in which they first occur. */
  ghost predicate FirstOccurrences(sub: seq<string>, all: seq<string>) {
    && Distinct(sub)
    && (forall u :: u in sub <==> u in all)
    && (forall i, j, a, b :: 0 <= i < j < |sub| && FirstAt(all, sub[i], a) && FirstAt(all, sub[j], b) ==> a < b)
  }

  /** ALL_BASE_URLS: the primary, if set, and then the fallbacks not listed yet. The primary is
      one stripped value; each fallback is non-empty. */
  method BaseUrls(primary: string, fallbacks: seq<string>) returns (urls: seq<string>)
    ensures FirstOccurrences(urls, (if primary != "" then [primary] else []) + fallbacks)
    ensures primary != "" ==> urls != [] && urls[0] == primary
  {
    ghost var all := (if primary != "" then [primary] else []) + fallbacks;
    ghost var first := if primary != "" then 1 else 0;
    urls := if primary != "" then [primary] else [];
    assert all[..first] == urls;
    for i := 0 to |fallbacks|
      invariant FirstOccurrences(urls, all[..first + i])
      invariant primary != "" ==> urls != [] && urls[0] == primary
    {
      assert all[..first + i + 1] == all[..first + i] + [fallbacks[i]];
      OneMore(urls, all[..first + i], fallbacks[i]);
      if fallbacks[i] !in urls {
        urls := urls + [fallbacks[i]];
      }
    }
    assert all[..first + |fallbacks|] == all;
  }

  lemma OneMore(sub: seq<string>, all: seq<string>, u: string)
    requires FirstOccurrences(sub, all)
    ensures FirstOccurrences(if u in sub then sub else sub + [u], all + [u])
  {
    var sub', all' := if u in sub then sub else sub + [u], all + [u];
    forall i, j, a, b | 0 <= i < j < |sub'| && FirstAt(all', sub'[i], a) && FirstAt(all', sub'[j], b)
      ensures a < b
    {
      assert sub'[i] == sub[i] && sub[i] in all;
      StaysFirst(all, u, sub[i], a);
      if j < |sub| {
        assert sub[j] in all;
        StaysFirst(all, u, sub[j], b);
      } else {
        NewIsLast(all, u, b);
      }
    }
  }

  lemma StaysFirst(all: seq<string>, u: string, x: string, a: int)
    requires x in all && FirstAt(all + [u], x, a)
    ensures FirstAt(all, x, a)
  {
    assert (all + [u])[..|all|] == all;
    assert a < |all|;
    assert (all + [u])[..a] == all[..a];
  }

  lemma NewIsLast(all: seq<string>, u: string, b: int)
    requires u !in all && FirstAt(all + [u], u, b)
    ensures b == |all|
  {
  }

  // ---- The sticky sender ------------------------------------------------------------------

  function Without(urls: seq<string>, x: string): seq<string> {
    if urls == [] then []
    else (if urls[0] != x then [urls[0]] else []) + Without(urls[1..], x)
  }

  lemma {:induction false} WithoutMeaning(urls: seq<string>, x: string)
    ensures multiset(Without(urls, x)) == multiset(urls)[x := 0]
    ensures forall u :: u in Without(urls, x) <==> u in urls && u != x
  {
    if urls != [] {
      WithoutMeaning(urls[1..], x);
      assert urls == [urls[0]] + urls[1..];
    }
  }

  lemma {:induction false} WithoutStaysDistinct(urls: seq<string>, x: string)
    requires Distinct(urls)
    ensures Distinct(Without(urls, x))
  {
    if urls != [] {
      WithoutStaysDistinct(urls[1..], x);
      WithoutMeaning(urls[1..], x);
      var rest := Without(urls[1..], x);
      assert urls[0] !in urls[1..];
      assert forall j :: 0 <= j < |rest| ==> rest[j] in rest;
    }
  }

  /** `ordered_bases`: the sticky base first, then the rest in order. */
  function OrderedBases(urls: seq<string>, current: Option<string>): seq<string> {
    if current.Some? && current.value in urls then [current.value] + Without(urls, current.value) else urls
  }

  /** The sticky base is moved to the front, and the others stay in their order. */
  lemma OrderMovesOne(urls: seq<string>, current: Option<string>, k: nat)
    requires Distinct(urls)
    ensures current.None? || current.value !in urls ==> OrderedBases(urls, current) == urls
    ensures k < |urls| && current == Some(urls[k]) ==>
              OrderedBases(urls, current) == [urls[k]] + urls[..k] + urls[k + 1..]
  {
    if k < |urls| && current == Some(urls[k]) {
      WithoutOne(urls, k);
    }
  }

  lemma {:induction false} WithoutOne(urls: seq<string>, k: nat)
    requires Distinct(urls) && k < |urls|
    ensures Without(urls, urls[k]) == urls[..k] + urls[k + 1..]
  {
    if k == 0 {
      WithoutAbsent(urls[1..], urls[0]);
    } else {
      assert urls[0] != urls[k] && urls[1..][k - 1] == urls[k];
      WithoutOne(urls[1..], k - 1);
      assert urls[..k] == [urls[0]] + urls[1..][..k - 1] && urls[1..][k..] == urls[k + 1..];
    }
  }

  lemma {:induction false} WithoutAbsent(urls: seq<string>, x: string)
    requires x !in urls
    ensures Without(urls, x) == urls
  {
    if urls != [] {
      assert urls == [urls[0]] + urls[1..];
      WithoutAbsent(urls[1..], x);
    }
  }

  lemma {:induction false} CountOfDistinct(urls: seq<string>, x: string)
    requires Distinct(urls) && x in urls
    ensures multiset(urls)[x] == 1
  {
    assert urls == [urls[0]] + urls[1..];
    if urls[0] != x {
      CountOfDistinct(urls[1..], x);
    } else {
      assert x !in urls[1..];
    }
  }

  /** Over distinct base URLs a round's order is a permutation of all of them, with the sticky
      one, if it is among them, in front. */
  lemma OrderIsPermutation(urls: seq<string>, current: Option<string>)
    requires Distinct(urls)
    ensures multiset(OrderedBases(urls, current)) == multiset(urls)
    ensures |OrderedBases(urls, current)| == |urls| && Distinct(OrderedBases(urls, current))
    ensures current.Some? && current.value in urls ==> OrderedBases(urls, current)[0] == current.value
  {
    if current.Some? && current.value in urls {
      var x := current.value;
      WithoutMeaning(urls, x);
      WithoutStaysDistinct(urls, x);
      CountOfDistinct(urls, x);
      assert forall j :: 0 <= j < |Without(urls, x)| ==> Without(urls, x)[j] in Without(urls, x);
      assert multiset(OrderedBases(urls, current)) == multiset{x} + multiset(Without(urls, x));
    }
    assert |multiset(OrderedBases(urls, current))| == |OrderedBases(urls, current)|;
    assert |multiset(urls)| == |urls|;
  }

  predicate Success(status: int) {
    200 <= status < 300
  }

  /** A client error that no other base would answer differently. */
  predicate GiveUp(status: int) {
    400 <= status < 500 && status !in {401, 403, 408, 429}
  }

  /** One post and its status; 0 stands for a transport failure. */
  datatype Post = Post(base: string, status: int)

  /** The post neither succeeds nor ends the call. */
  predicate Retries(post: Post) {
    !Success(post.status) && !GiveUp(post.status)
  }

  /** The posts of round r: the bases in order, as far as the round went. */
  ghost predicate InRound(bases: seq<string>, answers: (nat, nat) -> int, r: nat, posts: seq<Post>) {
    && |posts| <= |bases|
    && forall i :: 0 <= i < |posts| ==> posts[i] == Post(bases[i], answers(r, i))
  }

  ghost predicate AllRetry(posts: seq<Post>) {
    forall i :: 0 <= i < |posts| ==> Retries(posts[i])
  }

  /** Round r tried every base in vain. */
  ghost predicate Exhausted(bases: seq<string>, answers: (nat, nat) -> int, r: nat, posts: seq<Post>) {
    InRound(bases, answers, r, posts) && |posts| == |bases| && AllRetry(posts)
  }

  /** The last round ended the call with its last post. */
  ghost predicate Decisive(bases: seq<string>, answers: (nat, nat) -> int, r: nat, posts: seq<Post>, status: int) {
    && InRound(bases, answers, r, posts) && posts != []
    && AllRetry(posts[..|posts| - 1])
    && !Retries(posts[|posts| - 1]) && posts[|posts| - 1].status == status
  }

  /** The last status after that many exhausted rounds. */
  ghost function StatusAfter(bases: seq<string>, answers: (nat, nat) -> int, r: nat): int {
    if r == 0 || bases == [] then 0 else answers(r - 1, |bases| - 1)
  }

  /** What one call of the sender did: some exhausted rounds, a backoff after each, and, unless
      there were eight of them, a decisive round. */
  ghost predicate Transcript(bases: seq<string>, answers: (nat, nat) -> int,
                             rounds: seq<seq<Post>>, sleeps: seq<int>, status: int) {
    && Backoff(sleeps) && |sleeps| <= |rounds|
    && (forall r :: 0 <= r < |sleeps| ==> Exhausted(bases, answers, r, rounds[r]))
    && if |sleeps| == ROUNDS then
         |rounds| == ROUNDS && status == StatusAfter(bases, answers, ROUNDS)
       else
         |sleeps| < ROUNDS && |rounds| == |sleeps| + 1 && Decisive(bases, answers, |sleeps|, rounds[|sleeps|], status)
  }

  /** All rounds so far were exhausted, with a backoff after each. */
  ghost predicate InVain(bases: seq<string>, answers: (nat, nat) -> int,
                         rounds: seq<seq<Post>>, sleeps: seq<int>, status: int) {
    && Backoff(sleeps) && |sleeps| == |rounds|
    && (forall r :: 0 <= r < |rounds| ==> Exhausted(bases, answers, r, rounds[r]))
    && status == StatusAfter(bases, answers, |rounds|)
  }

  lemma RoundInVain(bases: seq<string>, answers: (nat, nat) -> int,
                    rounds: seq<seq<Post>>, sleeps: seq<int>, before: int, posts: seq<Post>, status: int)
    requires InVain(bases, answers, rounds, sleeps, before) && Exhausted(bases, answers, |rounds|, posts)
    requires status == if bases == [] then before else answers(|rounds|, |bases| - 1)
    ensures InVain(bases, answers, rounds + [posts], sleeps + [Delay(|rounds|)], status)
  {
  }

  lemma RoundDecides(bases: seq<string>, answers: (nat, nat) -> int,
                     rounds: seq<seq<Post>>, sleeps: seq<int>, before: int, posts: seq<Post>, status: int)
    requires InVain(bases, answers, rounds, sleeps, before) && Decisive(bases, answers, |rounds|, posts, status)
    requires |rounds| < ROUNDS
    ensures Transcript(bases, answers, rounds + [posts], sleeps, status)
  {
  }

  /** The base that answered with success, if the call succeeded. */
  ghost function Winner(rounds: seq<seq<Post>>, status: int): Option<string> {
    if Success(status) && rounds != [] && rounds[|rounds| - 1] != [] then
      var last := rounds[|rounds| - 1];
      Some(last[|last| - 1].base)
    else None
  }

  class Sender {
    const urls: seq<string>
    var current: Option<string>

    constructor (urls: seq<string>)
      ensures this.urls == urls && current == None
    {
      this.urls := urls;
      current := None;
    }

    /** `answers(r, i)` is the status of the i-th post of round r. Returns the last status, the
        posts of each round, and the seconds slept after each exhausted round. */
    method PostWithBackoff(answers: (nat, nat) -> int)
      returns (status: int, rounds: seq<seq<Post>>, sleeps: seq<int>)
      modifies this`current
      ensures Transcript(OrderedBases(urls, old(current)), answers, rounds, sleeps, status)
      ensures current == if Success(status) then Winner(rounds, status) else old(current)
    {
      var delay := 1;
      status, rounds, sleeps := 0, [], [];
      ghost var bases := OrderedBases(urls, current);
      for attempt := 0 to ROUNDS
        invariant current == old(current) && !Success(status)
        invariant |rounds| == attempt && delay == Delay(attempt)
        invariant InVain(bases, answers, rounds, sleeps, status)
      {
        var posts, over;
        ghost var before := status;
        status, posts, over := PostRound(answers, attempt, status);
        if over {
          RoundDecides(bases, answers, rounds, sleeps, before, posts, status);
          return status, rounds + [posts], sleeps;
        }
        RoundInVain(bases, answers, rounds, sleeps, before, posts, status);
        rounds := rounds + [posts];
        sleeps := sleeps + [delay];
        delay := if delay * 2 < 60 then delay * 2 else 60;
      }
    }

    /** The inner loop: one round over the bases, given the last status so far. */
    method PostRound(answers: (nat, nat) -> int, attempt: nat, before: int)
      returns (status: int, posts: seq<Post>, over: bool)
      requires !Success(before)
      modifies this`current
      ensures var bases := OrderedBases(urls, old(current));
              if over then Decisive(bases, answers, attempt, posts, status)
              else Exhausted(bases, answers, attempt, posts) && !Success(status)
                   && status == if bases == [] then before else answers(attempt, |bases| - 1)
      ensures current == if Success(status) then Some(posts[|posts| - 1].base) else old(current)
    {
      var bases := OrderedBases(urls, current);
      status, posts, over := before, [], false;
      for i := 0 to |bases|
        invariant current == old(current) && |posts| == i
        invariant InRound(bases, answers, attempt, posts) && AllRetry(posts)
        invariant status == if i > 0 then answers(attempt, i - 1) else before
        invariant !Success(status)
      {
        status := answers(attempt, i);
        posts := posts + [Post(bases[i], status)];
        assert posts[..|posts| - 1] == posts[..i];
        if Success(status) {
          current := Some(bases[i]);
          return status, posts, true;
        }
        if GiveUp(status) {
          return status, posts, true;
        }
      }
    }
  }

  ghost predicate Posted(rounds: seq<seq<Post>>, post: Post) {
    exists r :: 0 <= r < |rounds| && post in rounds[r]
  }

  lemma OnlyTheLastDecides(bases: seq<string>, answers: (nat, nat) -> int, rounds: seq<seq<Post>>, sleeps: seq<int>,
                           status: int,
                           r: nat, i: nat)
    requires Transcript(bases, answers, rounds, sleeps, status) && r < |rounds| && i < |rounds[r]|
    ensures !Retries(rounds[r][i]) ==> |sleeps| == r == |rounds| - 1 < ROUNDS && i == |rounds[r]| - 1
  {
  }

  /** The status ends the call: 2xx, or a client error other than 401, 403, 408 and 429. */
  ghost predicate Final(status: int) {
    200 <= status < 300 || (400 <= status < 500 && status != 401 && status != 403 && status != 408 && status != 429)
  }

  /** The call returns 2xx exactly when some post was answered 2xx, and then the winner is the
      base of that post; a call that ends early without 2xx met a client error that no other base
      would answer differently. */
  lemma SuccessExactly(bases: seq<string>, answers: (nat, nat) -> int, rounds: seq<seq<Post>>, sleeps: seq<int>,
                       status: int)
    requires Transcript(bases, answers, rounds, sleeps, status)
    ensures 200 <= status < 300 <==> exists post :: Posted(rounds, post) && 200 <= post.status < 300
    ensures forall post ::
              Posted(rounds, post) && 200 <= post.status < 300 ==> Winner(rounds, status) == Some(post.base)
    ensures |sleeps| < 8 <==> exists post :: Posted(rounds, post) && Final(post.status)
    ensures |sleeps| <= 8 && (|sleeps| < 8 ==> Final(status)) && (|sleeps| == 8 ==> !Final(status))
  {
    forall post | Posted(rounds, post) && Final(post.status)
      ensures |sleeps| < ROUNDS && status == post.status
      ensures 200 <= post.status < 300 ==> Winner(rounds, status) == Some(post.base)
    {
      var r :| 0 <= r < |rounds| && post in rounds[r];
      var i :| 0 <= i < |rounds[r]| && rounds[r][i] == post;
      OnlyTheLastDecides(bases, answers, rounds, sleeps, status, r, i);
    }
    if |sleeps| < ROUNDS {
      var last := rounds[|sleeps|];
      assert Posted(rounds, last[|last| - 1]);
    } else {
      assert Exhausted(bases, answers, ROUNDS - 1, rounds[ROUNDS - 1]);
      assert bases != [] ==> Retries(rounds[ROUNDS - 1][|bases| - 1]);
    }
  }

  /** The base that answered is a known one, and the next call starts with it. */
  lemma WinnerGoesFirst(urls: seq<string>, current: Option<string>, answers: (nat, nat) -> int,
                        rounds: seq<seq<Post>>, sleeps: seq<int>, status: int)
    requires Distinct(urls) && Transcript(OrderedBases(urls, current), answers, rounds, sleeps, status)
    requires Success(status)
    ensures Winner(rounds, status).Some?
    ensures OrderedBases(urls, Winner(rounds, status)) != []
    ensures OrderedBases(urls, Winner(rounds, status))[0] == Winner(rounds, status).value
  {
    var bases := OrderedBases(urls, current);
    SuccessExactly(bases, answers, rounds, sleeps, status);
    var last := rounds[|sleeps|];
    assert last[|last| - 1].base == bases[|last| - 1];
    assert bases[|last| - 1] in bases;
    OrderIsPermutation(urls, current);
    assert last[|last| - 1].base in multiset(bases);
    OrderIsPermutation(urls, Winner(rounds, status));
  }

  function CountTo(posts: seq<Post>, base: string): nat {
    if posts == [] then 0
    else CountTo(posts[..|posts| - 1], base) + if posts[|posts| - 1].base == base then 1 else 0
  }

  function CountAll(rounds: seq<seq<Post>>, base: string): nat {
    if rounds == [] then 0 else CountAll(rounds[..|rounds| - 1], base) + CountTo(rounds[|rounds| - 1], base)
  }

  lemma {:induction false} OncePerRound(bases: seq<string>, answers: (nat, nat) -> int, r: nat, posts: seq<Post>,
                                        base: string)
    requires Distinct(bases) && InRound(bases, answers, r, posts)
    ensures CountTo(posts, base) == if base in bases[..|posts|] then 1 else 0
  {
    if posts != [] {
      var n := |posts| - 1;
      OncePerRound(bases, answers, r, posts[..n], base);
      assert bases[..n + 1] == bases[..n] + [bases[n]];
      assert bases[n] !in bases[..n];
    }
  }

  lemma {:induction false} OncePerRoundInAll(bases: seq<string>, answers: (nat, nat) -> int, rounds: seq<seq<Post>>,
                                             base: string)
    requires Distinct(bases) && forall r :: 0 <= r < |rounds| ==> InRound(bases, answers, r, rounds[r])
    ensures CountAll(rounds, base) <= |rounds|
  {
    if rounds != [] {
      var n := |rounds| - 1;
      OncePerRoundInAll(bases, answers, rounds[..n], base);
      OncePerRound(bases, answers, n, rounds[n], base);
    }
  }

  /** Over distinct base URLs a call makes at most eight posts to each. */
  lemma AtMostEightPosts(urls: seq<string>, current: Option<string>, answers: (nat, nat) -> int,
                         rounds: seq<seq<Post>>, sleeps: seq<int>, status: int, base: string)
    requires Distinct(urls) && Transcript(OrderedBases(urls, current), answers, rounds, sleeps, status)
    ensures CountAll(rounds, base) <= 8
  {
    var bases := OrderedBases(urls, current);
    OrderIsPermutation(urls, current);
    forall r | 0 <= r < |rounds| ensures InRound(bases, answers, r, rounds[r]) {
      assert r < |sleeps| ==> Exhausted(bases, answers, r, rounds[r]);
    }
    OncePerRoundInAll(bases, answers, rounds, base);
  }

  // ---- Backoff ----------------------------------------------------------------------------

  /** The delay after round r, counted from 0: doubled from one second, and capped at 60. */
  function Delay(r: nat): int {
    if r == 0 then 1
    else
      var twice := Delay(r - 1) * 2;
      if twice < 60 then twice else 60
  }

  ghost predicate Backoff(sleeps: seq<int>) {
    forall r :: 0 <= r < |sleeps| ==> sleeps[r] == Delay(r)
  }

  function Sum(xs: seq<int>): int {
    if xs == [] then 0 else Sum(xs[..|xs| - 1]) + xs[|xs| - 1]
  }

  function Pow2(n: nat): nat {
    if n == 0 then 1 else 2 * Pow2(n - 1)
  }

  lemma {:induction false} DelayClosedForm(r: nat)
    ensures Delay(r) == if r < 6 then Pow2(r) else 60
    ensures r <= 6 ==> Pow2(r) <= 64
  {
    if r > 0 {
      DelayClosedForm(r - 1);
      assert Pow2(5) == 32 && Pow2(6) == 64;
      if r < 6 {
        assert Pow2(0) == 1 && Pow2(1) == 2 && Pow2(2) == 4 && Pow2(3) == 8 && Pow2(4) == 16;
      }
    }
  }

  /** After r exhausted rounds the sender has slept 2^r - 1 seconds for r <= 6, and 60 more for
      each round after that. */
  lemma {:induction false} TotalBackoff(sleeps: seq<int>)
    requires Backoff(sleeps)
    ensures var r := |sleeps|;
            Sum(sleeps) == if r <= 6 then Pow2(r) - 1 else 63 + 60 * (r - 6)
  {
    if sleeps != [] {
      TotalBackoff(sleeps[..|sleeps| - 1]);
      DelayClosedForm(|sleeps| - 1);
      assert Pow2(6) == 64;
    }
  }

  /** The eight rounds coded add up to 183 seconds of sleep. */
  lemma EightRoundsSleep183(sleeps: seq<int>)
    requires Backoff(sleeps) && |sleeps| == 8
    ensures Sum(sleeps) == 183
  {
    TotalBackoff(sleeps);
  }

  // ---- Heartbeats -------------------------------------------------------------------------

  /** One pass of the loop: how long a post takes if one is due, how much time goes by between
      the clock readings of the pass, and by how much the sleep overruns. */
  datatype Pass = Pass(post: real, lag: real, over: real)

  datatype Beat = Beat(due: real, started: real, returned: real)

  function Later(a: real, b: real): real {
    if a > b then a else b
  }

  function Earlier(a: real, b: real): real {
    if a < b then a else b
  }

  /** When the next heartbeat is due: an interval after the last post returned. */
  function NextDue(start: real, interval: int, beats: seq<Beat>): real {
    (if beats == [] then start else beats[|beats| - 1].returned) + interval as real
  }

  ghost predicate Bounded(passes: seq<Pass>, slack: real) {
    forall i :: 0 <= i < |passes| ==>
      passes[i].post >= 0.0 && passes[i].lag >= 0.0 && passes[i].over >= 0.0 && passes[i].lag + passes[i].over <= slack
  }

  /** How late a heartbeat can be: half a second, what the loop itself takes, and the interval
      if it is negative. */
  function MaxLate(interval: int, slack: real): real {
    0.5 + slack + Later(0.0, -(interval as real))
  }

  ghost predicate Scheduled(start: real, interval: int, beats: seq<Beat>, late: real) {
    forall k :: 0 <= k < |beats| ==>
      && beats[k].due == NextDue(start, interval, beats[..k])
      && beats[k].due <= beats[k].started <= beats[k].due + late
      && beats[k].started <= beats[k].returned
  }

  lemma OneMoreBeat(start: real, interval: int, beats: seq<Beat>, beat: Beat, late: real)
    requires Scheduled(start, interval, beats, late) && beat.due == NextDue(start, interval, beats)
    requires beat.due <= beat.started <= beat.due + late && beat.started <= beat.returned
    ensures Scheduled(start, interval, beats + [beat], late)
  {
  }

  /** The loop of `main`: each heartbeat starts no earlier than an interval after the previous
      post returned, at most half a second (plus slack) past due, and at the end none is overdue by
      more. Nothing is slept longer than five seconds, and nothing shorter while the next heartbeat is
      that far off. With a positive interval and nothing but exact sleeps, each starts exactly when due. */
  method Heartbeats(start: real, interval: int, passes: seq<Pass>, ghost slack: real)
    returns (beats: seq<Beat>, clock: real)
    requires Bounded(passes, slack) && slack >= 0.0
    ensures var late := 0.5 + slack + if interval < 0 then -(interval as real) else 0.0;
            Scheduled(start, interval, beats, late) && clock <= NextDue(start, interval, beats) + late
    ensures clock >= start + 0.5 * |passes| as real
    ensures interval >= 5 * |passes| && slack == 0.0 ==> clock == start + 5.0 * |passes| as real && beats == []
    ensures interval >= 1 && slack == 0.0 ==> Scheduled(start, interval, beats, 0.0)
  {
    beats, clock := [], start;
    var next := start + interval as real;
    ghost var whole := interval;
    ghost var quiet := interval >= 5 * |passes| && slack == 0.0;
    for i := 0 to |passes|
      invariant Scheduled(start, interval, beats, MaxLate(interval, slack))
      invariant next == NextDue(start, interval, beats)
      invariant clock <= next + MaxLate(interval, slack)
      invariant clock >= start + 0.5 * i as real
      invariant quiet ==> clock == start + 5.0 * i as real && next == start + interval as real && beats == []
      invariant interval >= 1 && slack == 0.0 ==> Scheduled(start, interval, beats, 0.0)
      invariant interval >= 1 && slack == 0.0 ==> whole >= 0 && next - clock == whole as real
    {
      var pass := passes[i];
      var now := clock;
      assert quiet ==> next - now >= 5.0;
      if now >= next {
        clock := now + pass.post;
        OneMoreBeat(start, interval, beats, Beat(next, now, clock), MaxLate(interval, slack));
        if interval >= 1 && slack == 0.0 {
          OneMoreBeat(start, interval, beats, Beat(next, now, clock), 0.0);
        }
        beats := beats + [Beat(next, now, clock)];
        next := clock + interval as real;
        whole := interval;
      }
      clock := clock + pass.lag;
      var nap := Earlier(5.0, Later(0.5, next - clock));
      whole := if whole > 5 then whole - 5 else 0;
      clock := clock + nap + pass.over;
    }
  }
}
