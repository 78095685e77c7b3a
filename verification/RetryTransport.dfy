/**
  The retrying round tripper of go/platform/retry/transport.go. The world it runs in, that is the transport below
  it, GetBody, the request's context and the timers, is scripted: any script at all, read as the calls happen.
*/
module RetryTransport {
  import Backoff
  import opened Options

  /** A request body: nil, http.NoBody, or a stream that can be read once. */
  datatype Body = Absent | Empty | Stream(id: nat)

  datatype NetError = NetError(permanent: bool, cause: nat)

  /** What one call of the base transport comes to; it never hands out a response beside an error. */
  datatype Outcome = Failed(err: NetError) | Answered(status: int, header: Backoff.RetryAfter, hasBody: bool)

  datatype Error =
    | NonRewindableBody
    | GetBodyFailed
    | PermanentFailure(err: NetError)
    | Cancelled
    | StatusAfterRetries(attempts: nat, status: int)
    | ErrorAfterRetries(attempts: nat, err: NetError)

  datatype Verdict = Continue | Stop(err: Option<Error>)

  class Response {
    const status: int
    const header: Backoff.RetryAfter
    const hasBody: bool
    var closed: bool

    constructor (status: int, header: Backoff.RetryAfter, hasBody: bool)
      ensures this.status == status && this.header == header && this.hasBody == hasBody && !closed
    {
      this.status, this.header, this.hasBody, this.closed := status, header, hasBody, false;
    }
  }

  class Request {
    var body: Body
    const hasGetBody: bool

    constructor Clone(req: Request)
      ensures body == req.body && hasGetBody == req.hasGetBody
    {
      body, hasGetBody := req.body, req.hasGetBody;
    }
  }

  /** One call of the base transport: the body it was given and the response it gave back. */
  datatype Exchange = Exchange(body: Body, resp: Response?)

  class World {
    /** The script, by the number of the call of the base transport that it belongs to. */
    const outcome: nat -> Outcome
    const rewindFails: nat -> bool
    const interrupted: nat -> bool
    const draw: nat -> int

    var log: seq<Exchange>
    var waits: seq<int>
    /** Streams are numbered as they are opened; this is the next number. */
    var streams: nat

    /** An empty body, or a stream that was not open when there were `before` of them. */
    predicate Fresh(body: Body, before: nat)
      reads this`streams
    {
      body == Empty || (body.Stream? && before <= body.id < streams)
    }

    method Send(req: Request) returns (resp: Response?, err: Option<NetError>)
      modifies this`log
      ensures log == old(log) + [Exchange(req.body, resp)]
      ensures
        match outcome(|old(log)|)
        case Failed(e) => resp == null && err == Some(e)
        case Answered(status, header, hasBody) =>
          && err == None && resp != null && fresh(resp) && !resp.closed
          && resp.status == status && resp.header == header && resp.hasBody == hasBody
    {
      match outcome(|log|) {
        case Failed(e) =>
          resp, err := null, Some(e);
        case Answered(status, header, hasBody) =>
          resp := new Response(status, header, hasBody);
          err := None;
      }
      log := log + [Exchange(req.body, resp)];
    }

    method GetBody(req: Request) returns (body: Option<Body>)
      modifies this`streams
      ensures body.None? <==> rewindFails(|log|)
      ensures streams >= old(streams)
      ensures body.Some? ==> Fresh(body.value, old(streams))
    {
      if rewindFails(|log|) {
        body := None;
      } else if req.body == Empty {
        body := Some(Empty);
      } else {
        body := Some(Stream(streams));
        streams := streams + 1;
      }
    }
  }

  /** What, if anything, keeps a body from being sent again as call number k. */
  function RewindError(world: World, body: Body, hasGetBody: bool, k: nat): (err: Option<Error>)
    ensures err == None || err == Some(NonRewindableBody) || err == Some(GetBodyFailed)
  {
    if !hasGetBody then if body.Stream? then Some(NonRewindableBody) else None
    else if body != Absent && world.rewindFails(k) then Some(GetBodyFailed)
    else None
  }

  method RewindRequestBody(world: World, req: Request) returns (err: Option<Error>)
    modifies world`streams, req
    ensures world.streams >= old(world.streams)
    ensures if old(req.body) == Absent || !req.hasGetBody
            then err == None && req.body == old(req.body)
            else if world.rewindFails(|world.log|) then err == Some(GetBodyFailed)
            else err == None && world.Fresh(req.body, old(world.streams))
  {
    if req.body != Absent && req.hasGetBody {
      var body := world.GetBody(req);
      if body.None? {
        return Some(GetBodyFailed);
      }
      req.body := body.value;
    }
    err := None;
  }

  /** What the loop does before every attempt but the first. */
  method RewindBeforeRetry(world: World, req: Request) returns (err: Option<Error>)
    modifies world`streams, req
    ensures world.streams >= old(world.streams)
    ensures err == RewindError(world, old(req.body), req.hasGetBody, |world.log|)
    ensures err == None ==> if old(req.body) != Absent && req.hasGetBody
                            then world.Fresh(req.body, old(world.streams))
                            else req.body == old(req.body) && !req.body.Stream?
  {
    if req.body.Stream? && !req.hasGetBody {
      return Some(NonRewindableBody);
    }
    err := RewindRequestBody(world, req);
  }

  lemma SameRewindError(world: World, body: Body, first: Body, hasGetBody: bool, k: nat)
    requires body == Absent <==> first == Absent
    requires !hasGetBody ==> body == first
    ensures RewindError(world, body, hasGetBody, k) == RewindError(world, first, hasGetBody, k)
  {}

  method DrainBody(resp: Response?)
    modifies resp
    ensures resp != null ==> resp.closed == (old(resp.closed) || resp.hasBody)
  {
    if resp != null && resp.hasBody {
      resp.closed := true;
    }
  }

  function NewTransport(maxAttempts: int, shouldRetry: Option<int -> bool>): (t: Transport)
    ensures t.Valid() && t.maxAttempts == if maxAttempts < 1 then 1 else maxAttempts
    ensures shouldRetry.Some? ==> t.shouldRetry == shouldRetry.value
    ensures shouldRetry == None ==> forall status :: !t.shouldRetry(status)
  {
    Transport(if maxAttempts < 1 then 1 else maxAttempts,
              match shouldRetry
              case Some(given) => given
              case None => status => false)
  }

  datatype Transport = Transport(maxAttempts: nat, shouldRetry: int -> bool) {
    predicate Valid() {
      maxAttempts >= 1
    }

    /** What follows call number k of the world, in a round trip whose first call was number `first`. */
    function AfterCall(world: World, first: nat, k: nat): Verdict {
      var exhausted := k + 1 - first >= maxAttempts;
      match world.outcome(k)
      case Failed(err) =>
        if err.permanent then Stop(Some(PermanentFailure(err)))
        else if exhausted then Stop(Some(ErrorAfterRetries(maxAttempts, err)))
        else if world.interrupted(k) then Stop(Some(Cancelled))
        else Continue
      case Answered(status, _, _) =>
        if !shouldRetry(status) then Stop(None)
        else if exhausted then Stop(Some(StatusAfterRetries(maxAttempts, status)))
        else if world.interrupted(k) then Stop(Some(Cancelled))
        else Continue
    }

    /** A transient failure, or a status to retry. */
    predicate CanRepeat(outcome: Outcome) {
      match outcome
      case Failed(err) => !err.permanent
      case Answered(status, _, _) => shouldRetry(status)
    }

    /** No response to a failed call, and one with the status and the header of the answer to any other. */
    predicate GaveResponse(outcome: Outcome, resp: Response?) {
      match outcome
      case Failed(_) => resp == null
      case Answered(status, header, _) => resp != null && resp.status == status && resp.header == header
    }

    /** What follows the n-th call of a round trip, by its outcome and by whether a wait would be interrupted. */
    ghost predicate Decides(last: Outcome, n: nat, interrupted: bool, verdict: Verdict) {
      var more := n < maxAttempts && CanRepeat(last);
      && (verdict == Continue <==> more && !interrupted)
      && (verdict == Stop(Some(Cancelled)) <==> more && interrupted)
      && (verdict == Stop(None) <==> last.Answered? && !shouldRetry(last.status))
      && (forall e :: verdict == Stop(Some(PermanentFailure(e))) <==> last == Failed(e) && e.permanent)
      && (forall m, e :: verdict == Stop(Some(ErrorAfterRetries(m, e))) <==>
            last == Failed(e) && !e.permanent && n >= maxAttempts == m)
      && (forall m, s :: verdict == Stop(Some(StatusAfterRetries(m, s))) <==>
            last.Answered? && last.status == s && shouldRetry(s) && n >= maxAttempts == m)
    }

    /**
      The error that a round trip of n calls ends in, by the outcome of its last call, number k, and by what the script
      has in store after it: one of the conditions holds, and it excludes the others.
    */
    ghost predicate Ends(world: World, body: Body, hasGetBody: bool, n: nat, k: nat, err: Option<Error>) {
      var last := world.outcome(k);
      var more := n < maxAttempts && CanRepeat(last);
      && (err == None <==> last.Answered? && !shouldRetry(last.status))
      && (forall e :: err == Some(PermanentFailure(e)) <==> last == Failed(e) && e.permanent)
      && (forall m, e :: err == Some(ErrorAfterRetries(m, e)) <==>
            last == Failed(e) && !e.permanent && n == maxAttempts == m)
      && (forall m, s :: err == Some(StatusAfterRetries(m, s)) <==>
            last.Answered? && last.status == s && shouldRetry(s) && n == maxAttempts == m)
      && (err == Some(Cancelled) <==> more && world.interrupted(k))
      && (err == Some(NonRewindableBody) <==> more && !world.interrupted(k) && body.Stream? && !hasGetBody)
      && (err == Some(GetBodyFailed) <==>
            more && !world.interrupted(k) && body != Absent && hasGetBody && world.rewindFails(k + 1))
    }

    /** Each of the calls could be repeated, and the wait after it ran out. */
    ghost predicate AllRepeat(world: World, from: nat, to: nat) {
      forall k :: from <= k < to ==> CanRepeat(world.outcome(k)) && !world.interrupted(k)
    }

    lemma EndingMeans(world: World, body: Body, hasGetBody: bool, first: nat, k: nat, err: Option<Error>)
      requires first <= k < first + maxAttempts && EndsIn(world, body, hasGetBody, first, k, err)
      ensures Ends(world, body, hasGetBody, k + 1 - first, k, err)
    {}

    lemma GoingOnMeans(world: World, body: Body, hasGetBody: bool, first: nat, k: nat)
      requires first <= k && GoesOn(world, body, hasGetBody, first, k)
      ensures CanRepeat(world.outcome(k)) && !world.interrupted(k)
    {}

    /** Whether call number k is followed by another: it has to be called for, and the body has to rewind. */
    predicate GoesOn(world: World, body: Body, hasGetBody: bool, first: nat, k: nat) {
      AfterCall(world, first, k) == Continue && RewindError(world, body, hasGetBody, k + 1) == None
    }

    /** The calls from the first to number `last` are each followed by another. */
    predicate AllGoOn(world: World, body: Body, hasGetBody: bool, first: nat, last: int) {
      forall k :: first <= k < last ==> GoesOn(world, body, hasGetBody, first, k)
    }

    lemma NoneGoOn(world: World, body: Body, hasGetBody: bool, first: nat)
      ensures AllGoOn(world, body, hasGetBody, first, first - 1) && AllGoOn(world, body, hasGetBody, first, first)
    {}

    lemma OneMoreGoesOn(world: World, body: Body, hasGetBody: bool, first: nat, last: int)
      requires AllGoOn(world, body, hasGetBody, first, last)
      requires last >= first ==> GoesOn(world, body, hasGetBody, first, last)
      ensures AllGoOn(world, body, hasGetBody, first, last + 1)
    {}

    /** The error that the round trip ends in when call number k is its last. */
    predicate EndsIn(world: World, body: Body, hasGetBody: bool, first: nat, k: nat, err: Option<Error>) {
      || AfterCall(world, first, k) == Stop(err)
      || (AfterCall(world, first, k) == Continue && err.Some? && RewindError(world, body, hasGetBody, k + 1) == err)
    }

    /** The script decides the whole round trip: at most one call can be the last, and with one error only. */
    lemma EndingUnique(world: World, body: Body, hasGetBody: bool, first: nat, k: nat, e: Option<Error>,
                       l: nat, f: Option<Error>)
      requires first <= k && EndsIn(world, body, hasGetBody, first, k, e)
      requires first <= l && EndsIn(world, body, hasGetBody, first, l, f)
      requires AllGoOn(world, body, hasGetBody, first, k) && AllGoOn(world, body, hasGetBody, first, l)
      ensures k == l && e == f
    {
      LastIsLast(world, body, hasGetBody, first, k, e);
      LastIsLast(world, body, hasGetBody, first, l, f);
    }

    lemma LastIsLast(world: World, body: Body, hasGetBody: bool, first: nat, k: nat, e: Option<Error>)
      requires EndsIn(world, body, hasGetBody, first, k, e)
      ensures !GoesOn(world, body, hasGetBody, first, k)
    {}

    /** A stream that cannot be opened again is sent by the first call only. */
    lemma NonRewindableSentOnce(world: World, id: nat, first: nat, last: nat)
      requires first <= last && AllGoOn(world, Stream(id), false, first, last)
      ensures last == first
    {
      NeverGoesOn(world, id, first);
    }

    lemma NeverGoesOn(world: World, id: nat, first: nat)
      ensures !GoesOn(world, Stream(id), false, first, first)
    {}

    /** Whether a response comes with it: beside no error, and beside a retryable status that outlasted the attempts. */
    predicate ReturnsResponse(err: Option<Error>) {
      err == None || err.value.StatusAfterRetries?
    }

    lemma RewindDecides(world: World, body: Body, hasGetBody: bool, first: nat, k: nat)
      requires AfterCall(world, first, k) == Continue
      ensures
        match RewindError(world, body, hasGetBody, k + 1)
        case None => GoesOn(world, body, hasGetBody, first, k)
        case Some(err) => EndsIn(world, body, hasGetBody, first, k, Some(err)) && !ReturnsResponse(Some(err))
    {}

    lemma VerdictMeans(world: World, body: Body, hasGetBody: bool, first: nat, k: nat, verdict: Verdict)
      requires first <= k && verdict == AfterCall(world, first, k)
      ensures verdict == Continue || verdict == Stop(Some(Cancelled)) ==> k + 1 - first < maxAttempts
      ensures verdict.Stop? ==> EndsIn(world, body, hasGetBody, first, k, verdict.err)
      ensures verdict.Stop? && ReturnsResponse(verdict.err) ==> world.outcome(k).Answered?
    {}

    method Wait(world: World, attempt: nat, resp: Response?) returns (err: Option<Error>)
      requires |world.log| > 0
      modifies world`waits
      ensures world.waits == old(world.waits) + [Delay(world, |world.log| - 1, attempt, resp)]
      ensures err == if world.interrupted(|world.log| - 1) then Some(Cancelled) else None
    {
      var k := |world.log| - 1;
      world.waits := world.waits + [Delay(world, k, attempt, resp)];
      err := if world.interrupted(k) then Some(Cancelled) else None;
    }

    function Delay(world: World, k: nat, attempt: nat, resp: Response?): int {
      Backoff.RetryDelay(attempt, if resp == null then None else Some(resp.status),
                         if resp == null then Backoff.Absent else resp.header, world.draw(k))
    }

    /** No stream is sent twice. */
    predicate SentOnce(calls: seq<Exchange>) {
      forall i, j :: 0 <= i < j < |calls| && calls[i].body.Stream? ==> calls[i].body != calls[j].body
    }

    /** All streams sent were among the first n. */
    predicate SentBefore(calls: seq<Exchange>, n: nat) {
      forall i :: 0 <= i < |calls| && calls[i].body.Stream? ==> calls[i].body.id < n
    }

    lemma NothingSent(n: nat)
      ensures SentOnce([]) && SentBefore([], n)
    {}

    lemma OneMoreSent(calls: seq<Exchange>, n: nat, call: Exchange, m: nat)
      requires SentOnce(calls) && SentBefore(calls, n) && n <= m
      requires call.body.Stream? ==> call.body.id < m && (n <= call.body.id || calls == [])
      ensures SentOnce(calls + [call]) && SentBefore(calls + [call], m)
    {}

    /** Each call was answered as the script says. */
    predicate Answers(world: World, first: nat, calls: seq<Exchange>) {
      forall i :: 0 <= i < |calls| ==> GaveResponse(world.outcome(first + i), calls[i].resp)
    }

    /** Wait number i followed call number i and was as long as its answer asks for. */
    predicate Paces(world: World, first: nat, calls: seq<Exchange>, waits: seq<int>) {
      |waits| <= |calls| &&
      forall i :: 0 <= i < |waits| ==>
        var resp, draw := calls[i].resp, world.draw(first + i);
        waits[i] == if resp == null then Backoff.RetryDelay(i, None, Backoff.Absent, draw)
                    else Backoff.RetryDelay(i, Some(resp.status), resp.header, draw)
    }

    lemma NoAnswers(world: World, first: nat)
      ensures Answers(world, first, []) && Paces(world, first, [], [])
    {}

    lemma OneMoreAnswer(world: World, first: nat, calls: seq<Exchange>, waits: seq<int>, call: Exchange, wait: seq<int>)
      requires Answers(world, first, calls) && Paces(world, first, calls, waits) && |waits| == |calls|
      requires GaveResponse(world.outcome(first + |calls|), call.resp)
      requires wait == [] || wait == [Delay(world, first + |calls|, |calls|, call.resp)]
      ensures Answers(world, first, calls + [call]) && Paces(world, first, calls + [call], waits + wait)
    {}

    /** One turn of the loop, from the call of the base transport on. */
    method Attempt(world: World, active: Request, attempt: nat)
      returns (resp: Response?, verdict: Verdict, ghost wait: seq<int>)
      requires attempt < maxAttempts && attempt <= |world.log|
      modifies world`log, world`waits
      ensures
        var k := |old(world.log)|;
        && |world.log| == k + 1 && world.log == old(world.log) + [world.log[k]]
        && world.log[k].body == active.body
        && var last := world.log[k].resp;
        && verdict == AfterCall(world, k - attempt, k)
        && Decides(world.outcome(k), attempt + 1, world.interrupted(k), verdict)
        && (last != null <==> world.outcome(k).Answered?)
        && (last != null ==> fresh(last) && last.status == world.outcome(k).status)
        && GaveResponse(world.outcome(k), last)
        && (verdict.Stop? && ReturnsResponse(verdict.err) ==> resp == last && last != null && !last.closed)
        && (!(verdict.Stop? && ReturnsResponse(verdict.err)) ==>
              resp == null && (last != null && last.hasBody ==> last.closed))
        && world.waits == old(world.waits) + wait
        && wait == if verdict == Continue || verdict == Stop(Some(Cancelled))
                   then [Delay(world, k, attempt, last)] else []
    {
      hide Delay;
      ghost var k := |world.log|;
      wait := [];
      var lastErr;
      resp, lastErr := world.Send(active);
      if lastErr.Some? {
        if lastErr.value.permanent {
          return null, Stop(Some(PermanentFailure(lastErr.value))), wait;
        }
        if attempt < maxAttempts - 1 {
          wait := [Delay(world, k, attempt, null)];
          var waitErr := Wait(world, attempt, null);
          return null, if waitErr.Some? then Stop(waitErr) else Continue, wait;
        }
        return null, Stop(Some(ErrorAfterRetries(maxAttempts, lastErr.value))), wait;
      }
      if !shouldRetry(resp.status) {
        return resp, Stop(None), wait;
      }
      if attempt == maxAttempts - 1 {
        return resp, Stop(Some(StatusAfterRetries(maxAttempts, resp.status))), wait;
      }
      DrainBody(resp);
      wait := [Delay(world, k, attempt, resp)];
      var waitErr := Wait(world, attempt, resp);
      return null, if waitErr.Some? then Stop(waitErr) else Continue, wait;
    }

    /** Every call but the last could be repeated and its wait ran out; the last and the script decide the error. */
    lemma TripMeans(world: World, body: Body, hasGetBody: bool, first: nat, n: nat, k: nat, err: Option<Error>)
      requires first <= k && n == k + 1 - first <= maxAttempts && EndsIn(world, body, hasGetBody, first, k, err)
      requires AllGoOn(world, body, hasGetBody, first, k)
      ensures AllRepeat(world, first, k)
      ensures Ends(world, body, hasGetBody, n, k, err)
    {
      EndingMeans(world, body, hasGetBody, first, k, err);
      hide Ends, GoesOn, CanRepeat;
      forall i | first <= i < k ensures CanRepeat(world.outcome(i)) && !world.interrupted(i) {
        GoingOnMeans(world, body, hasGetBody, first, i);
      }
    }

    lemma Longer<T>(a: seq<T>, b: seq<T>, c: seq<T>)
      ensures (a + b) + c == a + (b + c)
    {}

    /** What holds of the calls and waits of a round trip that is not over. */
    ghost predicate Underway(world: World, body: Body, hasGetBody: bool, first: nat, calls: seq<Exchange>,
                             waits: seq<int>, streams: nat)
    {
      && |waits| == |calls| < maxAttempts
      && AllGoOn(world, body, hasGetBody, first, first + |calls| - 1)
      && (calls != [] ==> AfterCall(world, first, first + |calls| - 1) == Continue && calls[0].body == body)
      && SentOnce(calls) && SentBefore(calls, streams)
      && Answers(world, first, calls) && Paces(world, first, calls, waits)
    }

    /** And of one that has ended, with this error. */
    ghost predicate Concluded(world: World, body: Body, hasGetBody: bool, first: nat, calls: seq<Exchange>,
                              waits: seq<int>, err: Option<Error>)
    {
      && 1 <= |calls| <= maxAttempts
      && (|waits| == |calls| - 1 || |waits| == |calls| < maxAttempts)
      && AllGoOn(world, body, hasGetBody, first, first + |calls| - 1)
      && EndsIn(world, body, hasGetBody, first, first + |calls| - 1, err)
      && calls[0].body == body && SentOnce(calls)
      && Answers(world, first, calls) && Paces(world, first, calls, waits)
    }

    lemma NothingYet(world: World, body: Body, hasGetBody: bool, first: nat, streams: nat)
      requires Valid()
      ensures Underway(world, body, hasGetBody, first, [], [], streams)
    {
      NothingSent(streams);
      NoAnswers(world, first);
      NoneGoOn(world, body, hasGetBody, first);
    }

    /** The body could not be put in place for another call. */
    lemma RewindConcludes(world: World, body: Body, hasGetBody: bool, first: nat, calls: seq<Exchange>,
                          waits: seq<int>, streams: nat, err: Error)
      requires Underway(world, body, hasGetBody, first, calls, waits, streams) && calls != []
      requires RewindError(world, body, hasGetBody, first + |calls|) == Some(err)
      ensures Concluded(world, body, hasGetBody, first, calls, waits, Some(err)) && !ReturnsResponse(Some(err))
    {
      hide AfterCall, RewindError, GoesOn, AllGoOn, EndsIn, SentOnce, SentBefore, Answers, Paces, ReturnsResponse;
      RewindDecides(world, body, hasGetBody, first, first + |calls| - 1);
    }

    /** One call more: on to the next, or the end. */
    lemma CallMade(world: World, body: Body, hasGetBody: bool, first: nat, calls: seq<Exchange>, waits: seq<int>,
                   streams: nat, more: nat, call: Exchange, wait: seq<int>, verdict: Verdict)
      requires Underway(world, body, hasGetBody, first, calls, waits, streams) && streams <= more
      requires if calls == [] then call.body == body else RewindError(world, body, hasGetBody, first + |calls|) == None
      requires call.body.Stream? ==> call.body.id < more && (streams <= call.body.id || calls == [])
      requires GaveResponse(world.outcome(first + |calls|), call.resp)
      requires verdict == AfterCall(world, first, first + |calls|)
      requires wait == if verdict == Continue || verdict == Stop(Some(Cancelled))
                       then [Delay(world, first + |calls|, |calls|, call.resp)] else []
      ensures verdict == Continue ==>
        Underway(world, body, hasGetBody, first, calls + [call], waits + wait, more)
      ensures verdict.Stop? ==>
        && Concluded(world, body, hasGetBody, first, calls + [call], waits + wait, verdict.err)
        && (ReturnsResponse(verdict.err) ==> call.resp != null)
    {
      hide AfterCall, RewindError, GoesOn, AllGoOn, EndsIn, SentOnce, SentBefore, Answers, Paces, ReturnsResponse, Delay;
      var k := first + |calls|;
      if calls == [] {
        NoneGoOn(world, body, hasGetBody, first);
      } else {
        RewindDecides(world, body, hasGetBody, first, k - 1);
        OneMoreGoesOn(world, body, hasGetBody, first, k - 1);
      }
      OneMoreSent(calls, streams, call, more);
      OneMoreAnswer(world, first, calls, waits, call, wait);
      VerdictMeans(world, body, hasGetBody, first, k, verdict);
    }

    /** The loop, on the copy of the request that it may change. */
    method Attempts(world: World, active: Request)
      returns (resp: Response?, err: Option<Error>, ghost calls: seq<Exchange>, ghost waits: seq<int>)
      requires Valid()
      requires active.body.Stream? ==> active.body.id < world.streams
      modifies world, active
      ensures world.log == old(world.log) + calls && world.waits == old(world.waits) + waits
      ensures Concluded(world, old(active.body), active.hasGetBody, |old(world.log)|, calls, waits, err)
      ensures |calls| > 0 && resp == if ReturnsResponse(err) then calls[|calls| - 1].resp else null
      ensures forall i :: 0 <= i < |calls| && calls[i].resp != null && calls[i].resp.hasBody ==>
        (calls[i].resp.closed <==> calls[i].resp != resp)
    {
      hide AfterCall, RewindError, ReturnsResponse, Underway, Concluded, Decides, GaveResponse, Delay;
      ghost var k0, first := |world.log|, active.body;
      calls, waits := [], [];
      var attempt := 0;
      NothingYet(world, first, active.hasGetBody, k0, world.streams);
      while true
        invariant attempt == |calls| < maxAttempts
        invariant world.log == old(world.log) + calls && world.waits == old(world.waits) + waits
        invariant active.body == Absent <==> first == Absent
        invariant !active.hasGetBody || attempt == 0 ==> active.body == first
        invariant active.body.Stream? ==> active.body.id < world.streams
        invariant Underway(world, first, active.hasGetBody, k0, calls, waits, world.streams)
        invariant forall i :: 0 <= i < |calls| && calls[i].resp != null && calls[i].resp.hasBody ==> calls[i].resp.closed
        decreases maxAttempts - attempt
      {
        ghost var before := world.streams;
        if attempt > 0 {
          SameRewindError(world, active.body, first, active.hasGetBody, k0 + attempt);
          err := RewindBeforeRetry(world, active);
          if err.Some? {
            RewindConcludes(world, first, active.hasGetBody, k0, calls, waits, before, err.value);
            resp := null;
            return;
          }
        }
        var verdict;
        ghost var wait;
        resp, verdict, wait := Attempt(world, active, attempt);
        ghost var call := world.log[k0 + attempt];
        CallMade(world, first, active.hasGetBody, k0, calls, waits, before, world.streams, call, wait, verdict);
        Longer(old(world.log), calls, [call]);
        Longer(old(world.waits), waits, wait);
        calls := calls + [call];
        waits := waits + wait;
        if verdict.Stop? {
          err := verdict.err;
          return;
        }
        attempt := attempt + 1;
        StillUnderway(world, first, active.hasGetBody, k0, calls, waits, world.streams);
      }
    }

    lemma StillUnderway(world: World, body: Body, hasGetBody: bool, first: nat, calls: seq<Exchange>, waits: seq<int>,
                        streams: nat)
      requires Underway(world, body, hasGetBody, first, calls, waits, streams)
      ensures |calls| < maxAttempts
    {}

    method RoundTrip(world: World, req: Request)
      returns (resp: Response?, err: Option<Error>, ghost calls: seq<Exchange>, ghost waits: seq<int>)
      requires Valid()
      requires req.body.Stream? ==> req.body.id < world.streams
      modifies world
      ensures world.log == old(world.log) + calls && world.waits == old(world.waits) + waits
      ensures 1 <= |calls| <= maxAttempts
      ensures AllGoOn(world, req.body, req.hasGetBody, |old(world.log)|, |world.log| - 1)
      ensures EndsIn(world, req.body, req.hasGetBody, |old(world.log)|, |world.log| - 1, err)
      ensures AllRepeat(world, |old(world.log)|, |world.log| - 1)
      ensures Ends(world, req.body, req.hasGetBody, |calls|, |world.log| - 1, err)
      ensures resp == if ReturnsResponse(err) then calls[|calls| - 1].resp else null
      ensures forall i :: 0 <= i < |calls| && calls[i].resp != null && calls[i].resp.hasBody ==>
        (calls[i].resp.closed <==> calls[i].resp != resp)
      ensures err == None ==> resp != null && !shouldRetry(resp.status)
      ensures err != None && resp != null ==> |calls| == maxAttempts && shouldRetry(resp.status)
      ensures calls[0].body == req.body && SentOnce(calls)
      ensures |waits| == |calls| - 1 || |waits| == |calls| < maxAttempts
      ensures Answers(world, |old(world.log)|, calls) && Paces(world, |old(world.log)|, calls, waits)
    {
      hide CanRepeat, AllRepeat, Paces, SentOnce, AllGoOn, EndsIn;
      ghost var k0 := |world.log|;
      var active := new Request.Clone(req);
      resp, err, calls, waits := Attempts(world, active);
      TripMeans(world, req.body, req.hasGetBody, k0, |calls|, |world.log| - 1, err);
    }
  }
}
