/**
 The worker side of pkg/apicheck/check.go: an error counter, peers asked batch by batch, and the verdict on the own
 health. The network is an input: for every batch the replies in the order in which the goroutines deliver them, and
 the clock readings.
 */
module ApiCheck {
  import opened Basics
  import opened Batches

  // Reply codes (api/HealthCheckResponse.go); any other value is possible and is counted nowhere.
  const REQUEST_FAILED: int := -1
  const HEALTHY: int := 1
  const UNHEALTHY: int := 2
  const API_ERROR: int := 3

  datatype Reason =
    | HealthyBecauseErrorsThresholdNotReached
    | HealthyBecauseNoPeersWereFound
    | HealthyBecauseCrNotFound
    | HealthyBecauseMostPeersCantAccessApiServer
    | HealthyBecauseNoPeersResponseNotReachedTimeout
    | UnhealthyBecausePeersResponse
    | UnhealthyBecauseNodeIsIsolated

  datatype Response = Response(isHealthy: bool, reason: Reason)

  /** A pod address; the zero value is the blank one. */
  type PodIp = string

  // ---------- the partition of the peer list into batches ----------

  /** `list`, the part of a list of `total` entries that has not been asked yet, cut into the batches to come. */
  function Split<T>(list: seq<T>, total: int): (batches: seq<seq<T>>)
    ensures |batches| == BatchesLeft(total, |list|)
    ensures forall b :: b in batches ==> b != []
    decreases |list|
  {
    if list == [] then []
    else
      var size := GetNextBatchSize(total, |list|);
      [list[..size]] + Split(list[size..], total)
  }

  function Flatten<T>(batches: seq<seq<T>>): seq<T> {
    if batches == [] then [] else batches[0] + Flatten(batches[1..])
  }

  /** The batches are consecutive parts of the list: nothing is left out, repeated or reordered. */
  lemma {:induction false} SplitCoversList<T>(list: seq<T>, total: int)
    ensures Flatten(Split(list, total)) == list
    decreases |list|
  {
    if list == [] {
    } else {
      var size := GetNextBatchSize(total, |list|);
      SplitCoversList(list[size..], total);
      assert Split(list, total)[1..] == Split(list[size..], total);
      assert list[..size] + list[size..] == list;
    }
  }

  // ---------- the declarative verdict ----------

  predicate Answered(batch: seq<int>) {
    HEALTHY in batch || UNHEALTHY in batch || API_ERROR in batch
  }

  function ApiErrors(batch: seq<int>): nat {
    multiset(batch)[API_ERROR]
  }

  /** Peers of the first `k` batches that answered that they cannot reach the API server either. */
  function ApiErrorsBefore(batches: seq<seq<int>>, k: nat): nat
    requires k <= |batches|
  {
    if k == 0 then 0 else ApiErrorsBefore(batches, k - 1) + ApiErrors(batches[k - 1])
  }

  /** A batch ends the query: somebody knows, or most of all peers are cut off from the API server too. */
  predicate Decides(errorsBefore: nat, total: int, batch: seq<int>) {
    HEALTHY in batch || UNHEALTHY in batch || 2 * (errorsBefore + ApiErrors(batch)) > total
  }

  /** One healthy answer beats every other answer of its batch; an unhealthy one beats the majority rule. */
  function Decision(batch: seq<int>): Response {
    if HEALTHY in batch then Response(true, HealthyBecauseCrNotFound)
    else if UNHEALTHY in batch then Response(false, UnhealthyBecausePeersResponse)
    else Response(true, HealthyBecauseMostPeersCantAccessApiServer)
  }

  predicate DecidesAt(batches: seq<seq<int>>, total: int, k: nat)
    requires k < |batches|
  {
    Decides(ApiErrorsBefore(batches, k), total, batches[k])
  }

  /** The first batch from `from` on that ends the query; the number of batches if none does. */
  function FirstDeciding(batches: seq<seq<int>>, total: int, from: nat): (k: nat)
    requires from <= |batches|
    ensures from <= k <= |batches|
    ensures k < |batches| ==> DecidesAt(batches, total, k)
    ensures forall j :: from <= j < k ==> !DecidesAt(batches, total, j)
    decreases |batches| - from
  {
    if from == |batches| || DecidesAt(batches, total, from) then from
    else FirstDeciding(batches, total, from + 1)
  }

  /** The verdict: what the first deciding batch says, or the silence timer if there is none. */
  function Verdict(batches: seq<seq<int>>, total: int, silent: bool): Response {
    var k := FirstDeciding(batches, total, 0);
    if k < |batches| then Decision(batches[k])
    else if silent then Response(false, UnhealthyBecauseNodeIsIsolated)
    else Response(true, HealthyBecauseNoPeersResponseNotReachedTimeout)
  }

  /** Batches asked: none after the deciding one. */
  function AskedBatches(batches: seq<seq<int>>, total: int): (n: nat)
    ensures n <= |batches|
  {
    Min(FirstDeciding(batches, total, 0) + 1, |batches|)
  }

  /** When a peer last answered: the end of the last of the first `k` batches with an answer, else `before`. */
  function LastAnswer(batches: seq<seq<int>>, clock: seq<int>, k: nat, before: int): int
    requires k <= |batches| == |clock|
  {
    if k == 0 then before
    else if Answered(batches[k - 1]) then clock[k - 1]
    else LastAnswer(batches, clock, k - 1, before)
  }

  lemma SplitStep<T>(rest: seq<T>, total: int, batches: seq<seq<T>>, i: nat)
    requires i <= |batches| && rest != [] && Split(rest, total) == batches[i..]
    ensures i < |batches|
    ensures var size := GetNextBatchSize(total, |rest|);
            && batches[i] == rest[..size] && Split(rest[size..], total) == batches[i + 1..]
            && batches[..i] + [rest[..size]] == batches[..i + 1]
  {
    assert batches[i..][0] == batches[i];
    assert batches[i..][1..] == batches[i + 1..];
  }

  /** When the first `i` batches left the query open, batch `i` either ends it or leaves it open. */
  lemma RoundStep(batches: seq<seq<int>>, total: int, i: nat)
    requires i < |batches| && FirstDeciding(batches, total, 0) == FirstDeciding(batches, total, i)
    ensures DecidesAt(batches, total, i) ==>
              && AskedBatches(batches, total) == i + 1
              && forall silent :: Verdict(batches, total, silent) == Decision(batches[i])
    ensures !DecidesAt(batches, total, i) ==> FirstDeciding(batches, total, 0) == FirstDeciding(batches, total, i + 1)
    ensures ApiErrorsBefore(batches, i + 1) == ApiErrorsBefore(batches, i) + ApiErrors(batches[i])
    ensures API_ERROR !in batches[i] ==> ApiErrors(batches[i]) == 0
  {
    assert API_ERROR in batches[i] <==> API_ERROR in multiset(batches[i]);
  }

  lemma RoundEnds(batches: seq<seq<int>>, total: int, i: nat)
    requires i == |batches| && FirstDeciding(batches, total, 0) == FirstDeciding(batches, total, i)
    ensures AskedBatches(batches, total) == i
    ensures Verdict(batches, total, true) == Response(false, UnhealthyBecauseNodeIsIsolated)
    ensures Verdict(batches, total, false) == Response(true, HealthyBecauseNoPeersResponseNotReachedTimeout)
  {
  }

  // ---------- the code ----------

  /** The peer list that the query shrinks through a pointer. */
  class PeerList {
    var ips: seq<PodIp>

    constructor (ips: seq<PodIp>)
      ensures this.ips == ips
    {
      this.ips := ips;
    }
  }

  /** Moves the first `count` peers out of the list; an entry without address stays in the batch, blank. */
  method PopPeerIps(peers: PeerList, count: int) returns (selected: seq<PodIp>)
    requires count >= 0
    modifies peers
    ensures selected == old(peers.ips)[..Min(count, |old(peers.ips)|)]
    ensures peers.ips == old(peers.ips)[Min(count, |old(peers.ips)|)..]
  {
    var nrOfPeers := |peers.ips|;
    if nrOfPeers == 0 {
      return [];
    }
    var n := if count > nrOfPeers then nrOfPeers else count;
    selected := seq(n, _ => "");
    for i := 0 to n
      invariant |selected| == n
      invariant selected[..i] == peers.ips[..i]
      invariant forall j :: i <= j < n ==> selected[j] == ""
    {
      var ip := peers.ips[i];
      if ip != "" {
        selected := selected[i := ip];
      }
      assert selected[..i + 1] == selected[..i] + [selected[i]];
      assert peers.ips[..i + 1] == peers.ips[..i] + [peers.ips[i]];
    }
    assert selected[..n] == selected;
    peers.ips := peers.ips[n..];
  }

  /** Counts the replies as they come out of the channel. */
  method SumPeersResponses(channel: seq<int>) returns (healthy: nat, unhealthy: nat, apiErrors: nat, noResponse: nat)
    ensures healthy == multiset(channel)[HEALTHY]
    ensures unhealthy == multiset(channel)[UNHEALTHY]
    ensures apiErrors == multiset(channel)[API_ERROR]
    ensures noResponse == multiset(channel)[REQUEST_FAILED]
    ensures (healthy > 0) == (HEALTHY in channel) && (unhealthy > 0) == (UNHEALTHY in channel)
    ensures (apiErrors > 0) == (API_ERROR in channel)
  {
    healthy, unhealthy, apiErrors, noResponse := 0, 0, 0, 0;
    for i := 0 to |channel|
      invariant healthy == multiset(channel[..i])[HEALTHY]
      invariant unhealthy == multiset(channel[..i])[UNHEALTHY]
      invariant apiErrors == multiset(channel[..i])[API_ERROR]
      invariant noResponse == multiset(channel[..i])[REQUEST_FAILED]
    {
      assert channel[..i + 1] == channel[..i] + [channel[i]];
      var response := channel[i];
      if response == UNHEALTHY {
        unhealthy := unhealthy + 1;
      } else if response == HEALTHY {
        healthy := healthy + 1;
      } else if response == API_ERROR {
        apiErrors := apiErrors + 1;
      } else if response == REQUEST_FAILED {
        noResponse := noResponse + 1;
      }
    }
    assert channel[..|channel|] == channel;
    assert forall code :: code in channel <==> code in multiset(channel);
  }

  /** One query round as the network plays it: replies by batch, the clock after each batch, and at the end. */
  datatype Network = Network(replies: seq<seq<int>>, clock: seq<int>, end: int)

  /** Every peer asked delivers one reply: the replies come in batches of the sizes that are asked. */
  ghost predicate Fits(net: Network, peers: seq<PodIp>) {
    && |net.replies| == |net.clock| == |Split(peers, |peers|)|
    && forall k :: 0 <= k < |net.replies| ==> |net.replies[k]| == |Split(peers, |peers|)[k]|
  }

  /** The detector's fields. */
  datatype Detector = Detector(errorCount: int, lastPeerResponse: int)

  /** The detector and the response after a failed API check. */
  function AfterFailedCheck(d: Detector, threshold: int, maxSilence: int, peers: seq<PodIp>,
                            net: Network): (Detector, Response)
    requires |net.replies| == |net.clock|
  {
    var count := d.errorCount + 1;
    if count < threshold then
      (d.(errorCount := count), Response(true, HealthyBecauseErrorsThresholdNotReached))
    else if peers == [] then
      (d.(errorCount := count), Response(true, HealthyBecauseNoPeersWereFound))
    else
      var last := LastAnswer(net.replies, net.clock, AskedBatches(net.replies, |peers|), d.lastPeerResponse);
      var verdict := Verdict(net.replies, |peers|, net.end > last + maxSilence);
      (Detector(if verdict.reason == HealthyBecauseCrNotFound then 0 else count, last), verdict)
  }

  class ApiConnectivityCheck {
    var errorCount: int
    var timeOfLastPeerResponse: int
    const maxErrorsThreshold: int
    const maxTimeForNoPeersResponse: int

    constructor (maxErrorsThreshold: int, maxTimeForNoPeersResponse: int, now: int)
      ensures State() == Detector(0, now)
      ensures this.maxErrorsThreshold == maxErrorsThreshold
      ensures this.maxTimeForNoPeersResponse == maxTimeForNoPeersResponse
    {
      this.errorCount := 0;
      this.timeOfLastPeerResponse := now;
      this.maxErrorsThreshold := maxErrorsThreshold;
      this.maxTimeForNoPeersResponse := maxTimeForNoPeersResponse;
    }

    function State(): Detector
      reads this
    {
      Detector(errorCount, timeOfLastPeerResponse)
    }

    /** One turn of the query loop: pop a batch, ask it, and stop if its replies decide. */
    method AskBatch(peersToAsk: PeerList, nrAllPeers: int, apiErrorsSum: nat, replies: seq<int>, now: int)
      returns (decision: Option<Response>, newSum: nat, chosen: seq<PodIp>)
      requires peersToAsk.ips != [] && 2 * apiErrorsSum <= nrAllPeers
      modifies this, peersToAsk
      ensures chosen == old(peersToAsk.ips)[..GetNextBatchSize(nrAllPeers, |old(peersToAsk.ips)|)]
      ensures peersToAsk.ips == old(peersToAsk.ips)[GetNextBatchSize(nrAllPeers, |old(peersToAsk.ips)|)..]
      ensures timeOfLastPeerResponse == if Answered(replies) then now else old(timeOfLastPeerResponse)
      ensures errorCount == if HEALTHY in replies then 0 else old(errorCount)
      ensures decision == if Decides(apiErrorsSum, nrAllPeers, replies) then Some(Decision(replies)) else None
      ensures decision.None? ==> newSum == apiErrorsSum + ApiErrors(replies) && 2 * newSum <= nrAllPeers
    {
      newSum := apiErrorsSum;
      var batchSize := GetNextBatchSize(nrAllPeers, |peersToAsk.ips|);
      chosen := PopPeerIps(peersToAsk, batchSize);
      var healthy, unhealthy, apiErrors, _ := SumPeersResponses(replies);
      if healthy + unhealthy + apiErrors > 0 {
        timeOfLastPeerResponse := now;
      }
      if healthy > 0 {
        errorCount := 0;
        return Some(Response(true, HealthyBecauseCrNotFound)), newSum, chosen;
      }
      if unhealthy > 0 {
        return Some(Response(false, UnhealthyBecausePeersResponse)), newSum, chosen;
      }
      if apiErrors > 0 {
        newSum := newSum + apiErrors;
        if newSum > nrAllPeers / 2 {
          return Some(Response(true, HealthyBecauseMostPeersCantAccessApiServer)), newSum, chosen;
        }
      }
      return None, newSum, chosen;
    }

    /**
     The batched query refines the declarative verdict, and the batches popped are exactly the parts of the list up
     to the deciding one.
     */
    method QueryPeers(peersToAsk: PeerList, net: Network) returns (r: Response, ghost asked: seq<seq<PodIp>>)
      requires Fits(net, peersToAsk.ips)
      modifies this, peersToAsk
      ensures var total := |old(peersToAsk.ips)|;
              && asked == Split(old(peersToAsk.ips), total)[..AskedBatches(net.replies, total)]
              && timeOfLastPeerResponse
                 == LastAnswer(net.replies, net.clock, AskedBatches(net.replies, total), old(timeOfLastPeerResponse))
              && r == Verdict(net.replies, total, net.end > timeOfLastPeerResponse + maxTimeForNoPeersResponse)
              && errorCount == if r.reason == HealthyBecauseCrNotFound then 0 else old(errorCount)
    {
      asked := [];
      ghost var all := peersToAsk.ips;
      ghost var batches := Split(all, |all|);
      var apiErrorsSum := 0;
      var nrAllPeers := |peersToAsk.ips|;
      var i := 0;
      while |peersToAsk.ips| > 0
        invariant errorCount == old(errorCount) && 0 <= i <= |net.replies|
        invariant Split(peersToAsk.ips, |all|) == batches[i..] && asked == batches[..i]
        invariant FirstDeciding(net.replies, |all|, 0) == FirstDeciding(net.replies, |all|, i)
        invariant apiErrorsSum == ApiErrorsBefore(net.replies, i) && 2 * apiErrorsSum <= |all|
        invariant timeOfLastPeerResponse == LastAnswer(net.replies, net.clock, i, old(timeOfLastPeerResponse))
        decreases |peersToAsk.ips|
      {
        SplitStep(peersToAsk.ips, |all|, batches, i);
        RoundStep(net.replies, |all|, i);
        var decision, chosen;
        decision, apiErrorsSum, chosen := AskBatch(peersToAsk, nrAllPeers, apiErrorsSum, net.replies[i], net.clock[i]);
        asked := asked + [chosen];
        if decision.Some? {
          return decision.value, asked;
        }
        i := i + 1;
      }
      assert batches[..i] == batches;
      RoundEnds(net.replies, |all|, i);
      if net.end > timeOfLastPeerResponse + maxTimeForNoPeersResponse {
        return Response(false, UnhealthyBecauseNodeIsIsolated), asked;
      } else {
        return Response(true, HealthyBecauseNoPeersResponseNotReachedTimeout), asked;
      }
    }

    method GetWorkerPeersResponse(peersToAsk: PeerList, net: Network) returns (r: Response)
      requires Fits(net, peersToAsk.ips)
      modifies this, peersToAsk
      ensures (State(), r) ==
              AfterFailedCheck(old(State()), maxErrorsThreshold, maxTimeForNoPeersResponse, old(peersToAsk.ips), net)
    {
      errorCount := errorCount + 1;
      if errorCount < maxErrorsThreshold {
        return Response(true, HealthyBecauseErrorsThresholdNotReached);
      }
      if |peersToAsk.ips| == 0 {
        return Response(true, HealthyBecauseNoPeersWereFound);
      }
      ghost var asked;
      r, asked := QueryPeers(peersToAsk, net);
    }

    /** One turn of the check loop on a worker; `reboot` tells whether the rebooter is called. */
    method CheckApi(apiOk: bool, peersToAsk: PeerList, net: Network) returns (reboot: bool)
      requires Fits(net, peersToAsk.ips)
      modifies this, peersToAsk
      ensures apiOk ==> !reboot && State() == old(State()).(errorCount := 0)
      ensures var (d, r) :=
                AfterFailedCheck(old(State()), maxErrorsThreshold, maxTimeForNoPeersResponse, old(peersToAsk.ips), net);
              !apiOk ==> State() == d && reboot == !r.isHealthy
    {
      if !apiOk {
        var r := GetWorkerPeersResponse(peersToAsk, net);
        return !r.isHealthy;
      }
      errorCount := 0;
      return false;
    }
  }

  /**
   When no batch before the last one ends the query, the batches asked are, one after the other, exactly the peer
   list, so every entry is asked once, and their number is the one GetNrOfBatches counts.
   */
  lemma FullQueryAsksEverybodyOnce(peers: seq<PodIp>, net: Network)
    requires Fits(net, peers) && FirstDeciding(net.replies, |peers|, 0) + 1 >= |net.replies|
    ensures Flatten(Split(peers, |peers|)[..AskedBatches(net.replies, |peers|)]) == peers
    ensures AskedBatches(net.replies, |peers|) == NrOfBatchesClosed(|peers|)
  {
    var batches := Split(peers, |peers|);
    assert batches[..|batches|] == batches;
    SplitCoversList(peers, |peers|);
    ClosedForm(|peers|);
  }

  // ---------- what the verdict does not depend on ----------

  ghost predicate SameReplies(a: seq<seq<int>>, b: seq<seq<int>>) {
    |a| == |b| && forall k :: 0 <= k < |a| ==> multiset(a[k]) == multiset(b[k])
  }

  lemma SameMembers(a: seq<int>, b: seq<int>, code: int)
    requires multiset(a) == multiset(b)
    ensures code in a <==> code in b
  {
    assert code in a <==> code in multiset(a);
    assert code in b <==> code in multiset(b);
  }

  lemma SameBatch(a: seq<int>, b: seq<int>)
    requires multiset(a) == multiset(b)
    ensures Answered(a) == Answered(b) && Decision(a) == Decision(b) && ApiErrors(a) == ApiErrors(b)
    ensures forall before: nat, total: int :: Decides(before, total, a) == Decides(before, total, b)
  {
    SameMembers(a, b, HEALTHY);
    SameMembers(a, b, UNHEALTHY);
    SameMembers(a, b, API_ERROR);
  }

  lemma {:induction false} SameErrors(a: seq<seq<int>>, b: seq<seq<int>>, k: nat)
    requires SameReplies(a, b) && k <= |a|
    ensures ApiErrorsBefore(a, k) == ApiErrorsBefore(b, k)
  {
    if k == 0 {
    } else {
      SameErrors(a, b, k - 1);
      SameBatch(a[k - 1], b[k - 1]);
    }
  }

  lemma {:induction false} SameFirst(a: seq<seq<int>>, b: seq<seq<int>>, total: int, from: nat)
    requires SameReplies(a, b) && from <= |a|
    ensures FirstDeciding(a, total, from) == FirstDeciding(b, total, from)
    decreases |a| - from
  {
    if from == |a| {
    } else {
      SameErrors(a, b, from);
      SameBatch(a[from], b[from]);
      SameFirst(a, b, total, from + 1);
    }
  }

  lemma {:induction false} SameLastAnswer(a: seq<seq<int>>, b: seq<seq<int>>, clock: seq<int>, k: nat, before: int)
    requires SameReplies(a, b) && k <= |a| == |clock|
    ensures LastAnswer(a, clock, k, before) == LastAnswer(b, clock, k, before)
  {
    if k == 0 {
    } else {
      SameBatch(a[k - 1], b[k - 1]);
      SameLastAnswer(a, b, clock, k - 1, before);
    }
  }

  /** The order in which the goroutines of a batch deliver their replies changes nothing. */
  lemma ArrivalOrderIrrelevant(d: Detector, threshold: int, maxSilence: int, peers: seq<PodIp>, a: Network, b: Network)
    requires |a.replies| == |a.clock| && SameReplies(a.replies, b.replies)
    requires a.clock == b.clock && a.end == b.end
    ensures AfterFailedCheck(d, threshold, maxSilence, peers, a) == AfterFailedCheck(d, threshold, maxSilence, peers, b)
  {
    SameFirst(a.replies, b.replies, |peers|, 0);
    SameLastAnswer(a.replies, b.replies, a.clock, AskedBatches(a.replies, |peers|), d.lastPeerResponse);
    var k := FirstDeciding(a.replies, |peers|, 0);
    if k < |a.replies| {
      SameBatch(a.replies[k], b.replies[k]);
    }
  }

  // ---------- a total outage of the API server ----------

  lemma {:induction false} ErrorsOfFlatten(batches: seq<seq<int>>, k: nat)
    requires k <= |batches|
    ensures ApiErrorsBefore(batches, k) + multiset(Flatten(batches[k..]))[API_ERROR]
            == multiset(Flatten(batches))[API_ERROR]
  {
    if k == 0 {
      assert batches[0..] == batches;
    } else {
      ErrorsOfFlatten(batches, k - 1);
      assert batches[k - 1..][0] == batches[k - 1];
      assert batches[k - 1..][1..] == batches[k..];
    }
  }

  lemma {:induction false} BatchInList(batches: seq<seq<int>>, k: nat)
    requires k < |batches|
    ensures forall x :: x in batches[k] ==> x in Flatten(batches)
  {
    if k == 0 {
    } else {
      assert batches[1..][k - 1] == batches[k];
      BatchInList(batches[1..], k - 1);
    }
  }

  lemma SameVerdict(a: seq<seq<int>>, b: seq<seq<int>>, total: int, silent: bool)
    requires SameReplies(a, b)
    ensures Verdict(a, total, silent) == Verdict(b, total, silent)
  {
    SameFirst(a, b, total, 0);
    var k := FirstDeciding(a, total, 0);
    if k < |a| {
      SameBatch(a[k], b[k]);
    }
  }

  /**
   `replies` holds the answer of every listed peer, in the order of the list. If no peer answers Healthy or Unhealthy,
   the worker is judged healthy by the majority rule exactly when strictly more than half of all listed peers answer
   that they cannot reach the API server, whatever the order of the list and of the replies; otherwise only the
   silence timer decides.
   */
  lemma {:induction false} OutageVerdict(replies: seq<int>, arrived: seq<seq<int>>, silent: bool)
    requires SameReplies(Split(replies, |replies|), arrived)
    requires HEALTHY !in replies && UNHEALTHY !in replies && replies != []
    ensures 2 * multiset(replies)[API_ERROR] > |replies| ==>
              Verdict(arrived, |replies|, silent) == Response(true, HealthyBecauseMostPeersCantAccessApiServer)
    ensures 2 * multiset(replies)[API_ERROR] <= |replies| ==>
              Verdict(arrived, |replies|, silent) ==
              if silent then Response(false, UnhealthyBecauseNodeIsIsolated)
              else Response(true, HealthyBecauseNoPeersResponseNotReachedTimeout)
  {
    var total, batches := |replies|, Split(replies, |replies|);
    SameVerdict(batches, arrived, total, silent);
    SplitCoversList(replies, total);
    VerdictByCount(batches, total, silent);
  }

  lemma VerdictByCount(batches: seq<seq<int>>, total: int, silent: bool)
    requires batches != [] && HEALTHY !in Flatten(batches) && UNHEALTHY !in Flatten(batches)
    ensures Verdict(batches, total, silent) ==
            if 2 * multiset(Flatten(batches))[API_ERROR] > total
            then Response(true, HealthyBecauseMostPeersCantAccessApiServer)
            else if silent then Response(false, UnhealthyBecauseNodeIsIsolated)
            else Response(true, HealthyBecauseNoPeersResponseNotReachedTimeout)
  {
    var k := FirstDeciding(batches, total, 0);
    if k < |batches| {
      BatchInList(batches, k);
      MajorityReached(batches, total, k);
    } else {
      QuietRound(batches, total);
    }
  }

  lemma MajorityReached(batches: seq<seq<int>>, total: int, k: nat)
    requires k < |batches| && DecidesAt(batches, total, k)
    requires HEALTHY !in batches[k] && UNHEALTHY !in batches[k]
    ensures 2 * multiset(Flatten(batches))[API_ERROR] > total
  {
    ErrorsOfFlatten(batches, k + 1);
  }

  /** If no batch decides, at most half of all peers reported the outage. */
  lemma QuietRound(batches: seq<seq<int>>, total: int)
    requires FirstDeciding(batches, total, 0) == |batches| && batches != []
    ensures 2 * multiset(Flatten(batches))[API_ERROR] <= total
  {
    var n := |batches|;
    ErrorsOfFlatten(batches, n);
    assert batches[n..] == [];
    assert !DecidesAt(batches, total, n - 1);
  }

  /**
   A worker is told to reboot only after a streak of failed checks as long as the threshold, and only because a batch
   held an Unhealthy answer, with no Healthy answer in it or in any earlier batch, or because the silence since the
   last answer of any peer exceeded the limit.
   */
  lemma RebootOnlyIf(d: Detector, threshold: int, maxSilence: int, peers: seq<PodIp>, net: Network)
    requires |net.replies| == |net.clock|
    requires !AfterFailedCheck(d, threshold, maxSilence, peers, net).1.isHealthy
    ensures AfterFailedCheck(d, threshold, maxSilence, peers, net).0.errorCount == d.errorCount + 1 >= threshold
    ensures peers != []
    ensures forall k :: 0 <= k < AskedBatches(net.replies, |peers|) ==> HEALTHY !in net.replies[k]
    ensures (exists k :: 0 <= k < AskedBatches(net.replies, |peers|) && UNHEALTHY in net.replies[k]) ||
            net.end > AfterFailedCheck(d, threshold, maxSilence, peers, net).0.lastPeerResponse + maxSilence
  {
    var k := FirstDeciding(net.replies, |peers|, 0);
    forall j | 0 <= j < AskedBatches(net.replies, |peers|) && j != k
      ensures HEALTHY !in net.replies[j]
    {
      assert !DecidesAt(net.replies, |peers|, j);
    }
  }

  // ---------- the verdict from the replies alone ----------

  /** Nobody in the first `k` batches knows about the remediation, and no majority reported an outage by then. */
  ghost predicate NothingBefore(replies: seq<seq<int>>, total: int, k: nat)
    requires k <= |replies|
  {
    forall j :: 0 <= j < k ==>
      && HEALTHY !in replies[j] && UNHEALTHY !in replies[j]
      && 2 * multiset(Flatten(replies[..j + 1]))[API_ERROR] <= total
  }

  /** A peer of batch `k` is the first to know that the node is not being remediated. */
  ghost predicate HealthyFirst(replies: seq<seq<int>>, total: int, k: nat) {
    k < |replies| && NothingBefore(replies, total, k) && HEALTHY in replies[k]
  }

  /** A peer of batch `k` is the first to know that it is, and none of its batch knows better. */
  ghost predicate UnhealthyFirst(replies: seq<seq<int>>, total: int, k: nat) {
    k < |replies| && NothingBefore(replies, total, k) && UNHEALTHY in replies[k] && HEALTHY !in replies[k]
  }

  /** With batch `k` the reported outages become a majority of all peers, before anybody knows. */
  ghost predicate OutageFirst(replies: seq<seq<int>>, total: int, k: nat) {
    && k < |replies| && NothingBefore(replies, total, k) && UNHEALTHY !in replies[k] && HEALTHY !in replies[k]
    && 2 * multiset(Flatten(replies[..k + 1]))[API_ERROR] > total
  }

  ghost predicate DecidedBy(replies: seq<seq<int>>, total: int, k: nat)
    ensures DecidedBy(replies, total, k) ==> k < |replies|
  {
    HealthyFirst(replies, total, k) || UnhealthyFirst(replies, total, k) || OutageFirst(replies, total, k)
  }

  /** `t` is when a peer last answered at all, or `before` if none did. */
  ghost predicate LastAnsweredAt(replies: seq<seq<int>>, clock: seq<int>, before: int, t: int)
    requires |replies| == |clock|
  {
    || (t == before && forall k :: 0 <= k < |replies| ==> NoneOf(replies[k]))
    || exists k :: && 0 <= k < |replies| && t == clock[k] && !NoneOf(replies[k])
                   && forall j :: k < j < |replies| ==> NoneOf(replies[j])
  }

  ghost predicate NoneOf(batch: seq<int>) {
    forall reply :: reply in batch ==> reply != HEALTHY && reply != UNHEALTHY && reply != API_ERROR
  }

  lemma {:induction false} FlattenAppend<T>(a: seq<seq<T>>, b: seq<T>)
    ensures Flatten(a + [b]) == Flatten(a) + b
  {
    if a == [] {
      assert a + [b] == [b] && [b][1..] == [];
    } else {
      assert (a + [b])[1..] == a[1..] + [b];
      FlattenAppend(a[1..], b);
    }
  }

  lemma {:induction false} ErrorsBeforeIs(replies: seq<seq<int>>, k: nat)
    requires k <= |replies|
    ensures ApiErrorsBefore(replies, k) == multiset(Flatten(replies[..k]))[API_ERROR]
  {
    if k == 0 {
    } else {
      ErrorsBeforeIs(replies, k - 1);
      assert replies[..k] == replies[..k - 1] + [replies[k - 1]];
      FlattenAppend(replies[..k - 1], replies[k - 1]);
    }
  }

  lemma UndecidedBefore(replies: seq<seq<int>>, total: int, k: nat)
    requires k <= |replies|
    ensures NothingBefore(replies, total, k) <==> FirstDeciding(replies, total, 0) >= k
  {
    forall j | 0 <= j < |replies|
      ensures ApiErrorsBefore(replies, j) + ApiErrors(replies[j]) == multiset(Flatten(replies[..j + 1]))[API_ERROR]
    {
      ErrorsBeforeIs(replies, j + 1);
    }
    if FirstDeciding(replies, total, 0) >= k {
      forall j | 0 <= j < k
        ensures HEALTHY !in replies[j] && UNHEALTHY !in replies[j]
        ensures 2 * multiset(Flatten(replies[..j + 1]))[API_ERROR] <= total
      {
        assert !DecidesAt(replies, total, j);
      }
    }
  }

  /** Which batch decides, and how: in terms of the replies alone. */
  lemma DecisionExactly(replies: seq<seq<int>>, total: int, k: nat)
    ensures HealthyFirst(replies, total, k) || UnhealthyFirst(replies, total, k) || OutageFirst(replies, total, k) <==>
            k < |replies| && FirstDeciding(replies, total, 0) == k
    ensures HealthyFirst(replies, total, k) ==> Decision(replies[k]) == Response(true, HealthyBecauseCrNotFound)
    ensures UnhealthyFirst(replies, total, k) ==> Decision(replies[k]) == Response(false, UnhealthyBecausePeersResponse)
    ensures OutageFirst(replies, total, k) ==>
              Decision(replies[k]) == Response(true, HealthyBecauseMostPeersCantAccessApiServer)
  {
    if k < |replies| {
      UndecidedBefore(replies, total, k);
      UndecidedBefore(replies, total, k + 1);
      ErrorsBeforeIs(replies, k + 1);
    }
  }

  lemma {:induction false} LastAnswerExactly(replies: seq<seq<int>>, clock: seq<int>, k: nat, before: int)
    requires k <= |replies| == |clock|
    ensures LastAnsweredAt(replies[..k], clock[..k], before, LastAnswer(replies, clock, k, before))
  {
    if k == 0 {
    } else if Answered(replies[k - 1]) {
      assert replies[..k][k - 1] == replies[k - 1] && !NoneOf(replies[k - 1]);
    } else {
      LastAnswerExactly(replies, clock, k - 1, before);
      var t, a, b := LastAnswer(replies, clock, k - 1, before), replies[..k - 1], replies[..k];
      assert b == a + [replies[k - 1]] && NoneOf(replies[k - 1]);
      if !(t == before && forall j :: 0 <= j < |a| ==> NoneOf(a[j])) {
        var i :| 0 <= i < |a| && t == clock[..k - 1][i] && !NoneOf(a[i]) && forall j :: i < j < |a| ==> NoneOf(a[j]);
        assert t == clock[..k][i] && !NoneOf(b[i]);
      }
    }
  }

  /** The deciding batch holds an answer. */
  lemma DecidingAnswers(replies: seq<seq<int>>, total: nat, k: nat)
    requires k < |replies| && FirstDeciding(replies, total, 0) == k
    ensures Answered(replies[k])
  {
    assert API_ERROR in replies[k] <==> API_ERROR in multiset(replies[k]);
    if k > 0 {
      assert !DecidesAt(replies, total, k - 1);
    }
  }

  lemma FirstsAreDeciding(replies: seq<seq<int>>, total: int)
    ensures forall k: nat :: DecidedBy(replies, total, k) ==> FirstDeciding(replies, total, 0) == k
  {
    forall k: nat | DecidedBy(replies, total, k)
      ensures FirstDeciding(replies, total, 0) == k
    {
      DecisionExactly(replies, total, k);
    }
  }

  /** When a peer last answered: with the deciding batch, or else at the end of the last batch with an answer. */
  lemma AnswerTimeExactly(d: Detector, threshold: int, maxSilence: int, peers: seq<PodIp>, net: Network)
    requires |net.replies| == |net.clock|
    ensures var last := AfterFailedCheck(d, threshold, maxSilence, peers, net).0.lastPeerResponse;
            if d.errorCount + 1 < threshold || peers == [] then last == d.lastPeerResponse
            else
              && (NothingBefore(net.replies, |peers|, |net.replies|) ==>
                    LastAnsweredAt(net.replies, net.clock, d.lastPeerResponse, last))
              && forall k: nat :: DecidedBy(net.replies, |peers|, k) ==> last == net.clock[k]
  {
    var replies, total := net.replies, |peers|;
    var first := FirstDeciding(replies, total, 0);
    FirstsAreDeciding(replies, total);
    if first < |replies| {
      DecidingAnswers(replies, total, first);
    }
    UndecidedBefore(replies, total, |replies|);
    LastAnswerExactly(replies, net.clock, |replies|, d.lastPeerResponse);
    assert replies[..|replies|] == replies && net.clock[..|replies|] == net.clock;
  }

  /**
   The verdict, from the replies alone. The worker asks its peers from the threshold on, if it has any. Judged
   unhealthy, and so rebooted, it is if and only if a peer is the first to know that it is being remediated, or nobody
   knows, no majority reported an outage, and no peer has answered for longer than the limit. The first peer to know
   better makes it healthy and resets the counter; nothing else resets it.
   */
  lemma VerdictExactly(d: Detector, threshold: int, maxSilence: int, peers: seq<PodIp>, net: Network)
    requires |net.replies| == |net.clock|
    ensures var (e, r) := AfterFailedCheck(d, threshold, maxSilence, peers, net);
            var asks := d.errorCount + 1 >= threshold && peers != [];
            var healthy := asks && exists k: nat :: HealthyFirst(net.replies, |peers|, k);
            var unhealthy := asks && exists k: nat :: UnhealthyFirst(net.replies, |peers|, k);
            var outage := asks && exists k: nat :: OutageFirst(net.replies, |peers|, k);
            var undecided := asks && NothingBefore(net.replies, |peers|, |net.replies|);
            && e.errorCount == (if healthy then 0 else d.errorCount + 1)
            && (r.isHealthy <==> !unhealthy && !(undecided && net.end > e.lastPeerResponse + maxSilence))
            && r.reason == (if d.errorCount + 1 < threshold then HealthyBecauseErrorsThresholdNotReached
                            else if peers == [] then HealthyBecauseNoPeersWereFound
                            else if healthy then HealthyBecauseCrNotFound
                            else if unhealthy then UnhealthyBecausePeersResponse
                            else if outage then HealthyBecauseMostPeersCantAccessApiServer
                            else if r.isHealthy then HealthyBecauseNoPeersResponseNotReachedTimeout
                            else UnhealthyBecauseNodeIsIsolated)
  {
    var replies, total := net.replies, |peers|;
    FirstsAreDeciding(replies, total);
    assert forall k: nat :: HealthyFirst(replies, total, k) ==> DecidedBy(replies, total, k);
    assert forall k: nat :: UnhealthyFirst(replies, total, k) ==> DecidedBy(replies, total, k);
    assert forall k: nat :: OutageFirst(replies, total, k) ==> DecidedBy(replies, total, k);
    DecisionExactly(replies, total, FirstDeciding(replies, total, 0));
    UndecidedBefore(replies, total, |replies|);
  }
}
