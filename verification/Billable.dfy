/** Billable Box requests (packages/box-executor/src/provider.ts): the bounded retry loop under one idempotency key, and
    what it makes of a provider that remembers keys. */
module Billable {
  import opened Bindings

  const WINDOW_MILLIS := 86_400_000
  const MAX_RESPONSE_BYTES := 131_072

  datatype Request = Request(issuedAt: int, expiresAt: int, key: string, body: string)

  datatype Kind =
    | Transport | InvalidResponse | InvalidRequest | ProviderRejected
    | IdempotencyReused | IdempotencyExpired | RetryExhausted

  datatype Error = Error(kind: Kind, status: Option<int>, code: Option<string>)

  /** How one exchange ends. */
  datatype Exchange = Answer(box: nat) | Failed(error: Error)

  datatype Send = Send(number: nat, at: int, key: string, body: string)

  datatype Result = Success(box: nat) | Failure(error: Error)

  /** A whole call: what was sent, and what the caller gets. */
  datatype Outcome = Outcome(sends: seq<Send>, result: Result)

  function RejectedError(status: int, code: Option<string>): Error {
    if code == Some("idempotency_key_reused") then Error(IdempotencyReused, Some(status), code)
    else Error(ProviderRejected, Some(status), code)
  }

  predicate IsRetryable(error: Error) {
    || error.kind == Transport
    || (error.kind == InvalidResponse
        && (error.status.None? || 200 <= error.status.value < 300 || error.status.value >= 500))
    || (error.status.Some? && error.status.value >= 500)
    || (error.status == Some(409) && error.code == Some("idempotency_in_progress"))
  }

  /** `attempt`: `clock` is read, and `exchange` made, once for each attempt. */
  function Attempt(request: Request, retryAttempts: nat, clock: nat -> int, exchange: nat -> Exchange,
                   number: nat): Outcome
    decreases if number < retryAttempts then retryAttempts - number else 0
  {
    var now := clock(number);
    if request.expiresAt - request.issuedAt != WINDOW_MILLIS || now < request.issuedAt
    then Outcome([], Failure(Error(InvalidRequest, None, None)))
    else if now >= request.expiresAt then Outcome([], Failure(Error(IdempotencyExpired, None, None)))
    else
      var sent := Send(number, now, request.key, request.body);
      match exchange(number)
      case Answer(box) => Outcome([sent], Success(box))
      case Failed(error) =>
        if !IsRetryable(error) then Outcome([sent], Failure(error))
        else if number >= retryAttempts then Outcome([sent], Failure(Error(RetryExhausted, error.status, error.code)))
        else
          var rest := Attempt(request, retryAttempts, clock, exchange, number + 1);
          Outcome([sent] + rest.sends, rest.result)
  }

  function Call(request: Request, retryAttempts: nat, clock: nat -> int, exchange: nat -> Exchange): Outcome {
    Attempt(request, retryAttempts, clock, exchange, 1)
  }

  // ----- the loop -----

  /** The request may be sent at this moment. */
  predicate InWindow(request: Request, now: int) {
    request.expiresAt - request.issuedAt == WINDOW_MILLIS && request.issuedAt <= now < request.expiresAt
  }

  predicate Retryable(exchange: Exchange) { exchange.Failed? && IsRetryable(exchange.error) }

  lemma {:induction false} AttemptSends(request: Request, retryAttempts: nat, clock: nat -> int,
                                        exchange: nat -> Exchange, number: nat)
    requires 1 <= number <= retryAttempts
    ensures var sends := Attempt(request, retryAttempts, clock, exchange, number).sends;
            && |sends| <= retryAttempts - number + 1
            && (forall i :: 0 <= i < |sends| ==>
                sends[i] == Send(number + i, clock(number + i), request.key, request.body)
                                                 && InWindow(request, sends[i].at))
            && (forall i :: 0 <= i < |sends| - 1 ==> Retryable(exchange(sends[i].number)))
    decreases retryAttempts - number
  {
    if !InWindow(request, clock(number)) || !Retryable(exchange(number)) || number == retryAttempts {
    } else {
      AttemptSends(request, retryAttempts, clock, exchange, number + 1);
      var rest := Attempt(request, retryAttempts, clock, exchange, number + 1).sends;
      var sends := Attempt(request, retryAttempts, clock, exchange, number).sends;
      assert sends == [sends[0]] + rest;
      assert forall i :: 0 < i < |sends| ==> sends[i] == rest[i - 1];
    }
  }

  lemma {:induction false} AttemptEnds(request: Request, retryAttempts: nat, clock: nat -> int,
                                       exchange: nat -> Exchange, number: nat)
    requires 1 <= number <= retryAttempts
    ensures var outcome := Attempt(request, retryAttempts, clock, exchange, number);
            var last := number + |outcome.sends|;
            match outcome.result
            case Success(box) => |outcome.sends| > 0 && exchange(last - 1) == Answer(box)
            case Failure(error) =>
              || (last <= retryAttempts && !InWindow(request, clock(last))
                  && error.kind in {InvalidRequest, IdempotencyExpired}
                  && (|outcome.sends| > 0 ==> Retryable(exchange(last - 1))))
              || (|outcome.sends| > 0 && exchange(last - 1) == Failed(error) && !IsRetryable(error))
              || (last - 1 == retryAttempts && Retryable(exchange(last - 1))
                  && error == Error(RetryExhausted, exchange(last - 1).error.status, exchange(last - 1).error.code))
    decreases retryAttempts - number
  {
    if !InWindow(request, clock(number)) || !Retryable(exchange(number)) || number == retryAttempts {
    } else {
      AttemptEnds(request, retryAttempts, clock, exchange, number + 1);
    }
  }

  /** Bounded retries: at most `retryAttempts` sends, all of the same body under the same key, each begun inside the
      window and after a retryable failure; a success is the answer to the last of them. */
  lemma {:induction false} BoundedRetries(request: Request, retryAttempts: nat, clock: nat -> int,
                                          exchange: nat -> Exchange)
    requires 1 <= retryAttempts <= 8
    ensures var outcome := Call(request, retryAttempts, clock, exchange);
            var sends := outcome.sends;
            && |sends| <= retryAttempts
            && (forall i :: 0 <= i < |sends| ==>
                  sends[i].number == i + 1 && sends[i].key == request.key && sends[i].body == request.body
                  && InWindow(request, sends[i].at))
            && (forall i :: 0 <= i < |sends| - 1 ==> Retryable(exchange(sends[i].number)))
            && (outcome.result.Success? ==> sends != [] && exchange(|sends|) == Answer(outcome.result.box))
  {
    AttemptSends(request, retryAttempts, clock, exchange, 1);
    AttemptEnds(request, retryAttempts, clock, exchange, 1);
  }

  /** Exchanges themselves never end with what only the loop reports. */
  ghost predicate Plain(exchange: nat -> Exchange) {
    forall n :: exchange(n).Failed? ==> exchange(n).error.kind !in {InvalidRequest, IdempotencyExpired, RetryExhausted}
  }

  /** The loop gives up exactly when every attempt was begun and failed in a way worth retrying; it reports an
      invalid or expired request exactly when an attempt came due outside the window. */
  lemma {:induction false} GivesUpExactly(request: Request, retryAttempts: nat, clock: nat -> int,
                                          exchange: nat -> Exchange)
    requires 1 <= retryAttempts <= 8 && Plain(exchange)
    ensures var outcome := Call(request, retryAttempts, clock, exchange);
            var begun := |outcome.sends|;
            && (outcome.result.Failure? && outcome.result.error.kind == RetryExhausted <==>
                  begun == retryAttempts && Retryable(exchange(retryAttempts)))
            && (outcome.result.Failure? && outcome.result.error.kind in {InvalidRequest, IdempotencyExpired} <==>
                  begun < retryAttempts && !InWindow(request, clock(begun + 1))
                  && (begun > 0 ==> Retryable(exchange(begun))))
  {
    AttemptSends(request, retryAttempts, clock, exchange, 1);
    AttemptEnds(request, retryAttempts, clock, exchange, 1);
    AttemptStops(request, retryAttempts, clock, exchange, 1);
  }

  lemma {:induction false} AttemptStops(request: Request, retryAttempts: nat, clock: nat -> int,
                                        exchange: nat -> Exchange, number: nat)
    requires 1 <= number <= retryAttempts
    ensures var outcome := Attempt(request, retryAttempts, clock, exchange, number);
            var last := number + |outcome.sends|;
            outcome.result.Failure? && last <= retryAttempts && !InWindow(request, clock(last))
            && (|outcome.sends| > 0 ==> Retryable(exchange(last - 1))) ==>
              outcome.result.error.kind in {InvalidRequest, IdempotencyExpired}
    decreases retryAttempts - number
  {
    if !InWindow(request, clock(number)) || !Retryable(exchange(number)) || number == retryAttempts {
    } else {
      AttemptStops(request, retryAttempts, clock, exchange, number + 1);
    }
  }

  /** A rejection ends the call at once and is what the caller gets, unless its status is the provider's own failure or
      says that the first send is still being dealt with; even a reused key is sent again under such a status. */
  lemma {:induction false} RejectionIsFinal(request: Request, retryAttempts: nat, clock: nat -> int,
                                            exchange: nat -> Exchange, number: nat, status: int, code: Option<string>)
    requires 1 <= retryAttempts <= 8
    requires 1 <= number <= |Call(request, retryAttempts, clock, exchange).sends|
    requires exchange(number) == Failed(RejectedError(status, code))
    ensures var outcome := Call(request, retryAttempts, clock, exchange);
            if status >= 500 || (status == 409 && code == Some("idempotency_in_progress"))
            then number == |outcome.sends| ==> number == retryAttempts
                                               || !InWindow(request, clock(number + 1))
            else number == |outcome.sends| && outcome.result == Failure(RejectedError(status, code))
  {
    AttemptSends(request, retryAttempts, clock, exchange, 1);
    AttemptEnds(request, retryAttempts, clock, exchange, 1);
    var sends := Call(request, retryAttempts, clock, exchange).sends;
    assert sends[number - 1].number == number;
  }

  // ----- how a call ends -----

  /** After this attempt there is another, if any is left. */
  predicate GoesOn(request: Request, clock: nat -> int, exchange: nat -> Exchange, number: nat) {
    InWindow(request, clock(number)) && Retryable(exchange(number))
  }

  /** The attempt at which a call stops: all before it were begun in the window and failed in a way worth retrying,
      and it was not, or is the last. */
  ghost predicate StopsAt(request: Request, retryAttempts: nat, clock: nat -> int, exchange: nat -> Exchange, n: nat) {
    && 1 <= n <= retryAttempts
    && (forall k :: 1 <= k < n ==> GoesOn(request, clock, exchange, k))
    && (n < retryAttempts ==> !GoesOn(request, clock, exchange, n))
  }

  /** What a call that stops at this attempt gives its caller. */
  function EndOf(request: Request, clock: nat -> int, exchange: nat -> Exchange, n: nat): Result {
    if !InWindow(request, clock(n)) then
      Failure(Error(if request.expiresAt - request.issuedAt == 86_400_000 && clock(n) >= request.expiresAt
                    then IdempotencyExpired else InvalidRequest, None, None))
    else match exchange(n)
      case Answer(box) => Success(box)
      case Failed(error) =>
        Failure(if Retryable(exchange(n)) then Error(RetryExhausted, error.status, error.code) else error)
  }

  /** The sends of the first attempts, one each. */
  function Sends(request: Request, clock: nat -> int, count: nat): seq<Send> {
    seq(count, i requires 0 <= i < count => Send(i + 1, clock(i + 1), request.key, request.body))
  }

  lemma {:induction false} StopsSomewhere(request: Request, retryAttempts: nat, clock: nat -> int,
                                          exchange: nat -> Exchange, from: nat) returns (n: nat)
    requires 1 <= from <= retryAttempts && forall k :: 1 <= k < from ==> GoesOn(request, clock, exchange, k)
    ensures StopsAt(request, retryAttempts, clock, exchange, n)
    decreases retryAttempts - from
  {
    if from == retryAttempts || !GoesOn(request, clock, exchange, from) {
      n := from;
    } else {
      n := StopsSomewhere(request, retryAttempts, clock, exchange, from + 1);
    }
  }

  lemma {:induction false} AttemptExactly(request: Request, retryAttempts: nat, clock: nat -> int,
                                          exchange: nat -> Exchange, number: nat, n: nat)
    requires StopsAt(request, retryAttempts, clock, exchange, n) && 1 <= number <= n
    ensures var outcome := Attempt(request, retryAttempts, clock, exchange, number);
            && outcome.result == EndOf(request, clock, exchange, n)
            && outcome.sends
               == Sends(request, clock, if InWindow(request, clock(n)) then n else n - 1)[number - 1..]
    decreases n - number
  {
    var sends := Sends(request, clock, if InWindow(request, clock(n)) then n else n - 1);
    if number == n {
    } else {
      assert GoesOn(request, clock, exchange, number);
      AttemptExactly(request, retryAttempts, clock, exchange, number + 1, n);
      assert sends[number - 1..] == [sends[number - 1]] + sends[number..];
    }
  }

  /** A call, exactly: it sends once in each attempt up to the one at which it stops, if that was begun in the
      window, and its result is that of this attempt: the Box answered, a final error as it is, or what ran out. */
  lemma {:induction false} CallExactly(request: Request, retryAttempts: nat, clock: nat -> int,
                                       exchange: nat -> Exchange)
    requires 1 <= retryAttempts <= 8
    ensures exists n: nat :: StopsAt(request, retryAttempts, clock, exchange, n)
                        && Call(request, retryAttempts, clock, exchange)
                           == Outcome(Sends(request, clock, if InWindow(request, clock(n)) then n else n - 1),
                                      EndOf(request, clock, exchange, n))
  {
    var n := StopsSomewhere(request, retryAttempts, clock, exchange, 1);
    AttemptExactly(request, retryAttempts, clock, exchange, 1, n);
    var sends := Sends(request, clock, if InWindow(request, clock(n)) then n else n - 1);
    assert sends[0..] == sends;
  }

  // ----- the provider -----

  /** The provider deals with one of the sends, at a time of its own. */
  datatype Handling = Handling(number: nat, at: int, body: string)

  datatype Response = Box(box: nat) | KeyReused

  /** What the provider remembers of the key: when it first saw it, with which body, and the Box it made. */
  datatype Memory = Memory(since: int, body: string, box: nat)

  datatype Provider = Provider(memory: Option<Memory>, boxes: nat)

  /** A key is remembered for the length of the window; then it is new again. */
  predicate Remembers(provider: Provider, at: int) {
    provider.memory.Some? && at < provider.memory.value.since + WINDOW_MILLIS
  }

  function Handle(provider: Provider, handling: Handling): (Provider, Response) {
    if Remembers(provider, handling.at)
    then (provider, if provider.memory.value.body == handling.body then Box(provider.memory.value.box) else KeyReused)
    else (Provider(Some(Memory(handling.at, handling.body, provider.boxes)), provider.boxes + 1), Box(provider.boxes))
  }

  function After(handlings: seq<Handling>): Provider {
    if handlings == [] then Provider(None, 0)
    else Handle(After(handlings[..|handlings| - 1]), handlings[|handlings| - 1]).0
  }

  function ResponseAt(handlings: seq<Handling>, i: nat): Response
    requires i < |handlings|
  {
    Handle(After(handlings[..i]), handlings[i]).1
  }

  ghost predicate InOrder(handlings: seq<Handling>) {
    forall i, j :: 0 <= i <= j < |handlings| ==> handlings[i].at <= handlings[j].at
  }

  ghost predicate SameBody(handlings: seq<Handling>, body: string) {
    forall i :: 0 <= i < |handlings| ==> handlings[i].body == body
  }

  lemma {:induction false} MemoryOf(handlings: seq<Handling>, body: string)
    requires handlings != [] && InOrder(handlings) && SameBody(handlings, body)
    ensures var provider := After(handlings);
            && provider.memory.Some? && provider.memory.value.body == body && provider.boxes >= 1
            && handlings[0].at <= provider.memory.value.since <= handlings[|handlings| - 1].at
            && (provider.boxes == 1 ==>
                provider.memory.value.since == handlings[0].at && provider.memory.value.box == 0)
            && (provider.boxes > 1 ==> provider.memory.value.since >= handlings[0].at + WINDOW_MILLIS)
  {
    var past := handlings[..|handlings| - 1];
    if past == [] {
    } else {
      MemoryOf(past, body);
    }
  }

  /** The provider makes exactly one Box if and only if the last of the sends it deals with falls inside the window that
      the first one opened. */
  lemma {:induction false} OneBoxExactly(handlings: seq<Handling>, body: string)
    requires handlings != [] && InOrder(handlings) && SameBody(handlings, body)
    ensures After(handlings).boxes == 1 <==> handlings[|handlings| - 1].at < handlings[0].at + WINDOW_MILLIS
  {
    var past := handlings[..|handlings| - 1];
    MemoryOf(handlings, body);
    if past == [] {
    } else {
      MemoryOf(past, body);
      OneBoxExactly(past, body);
    }
  }

  /** Every handling is of something sent, not before it was sent. */
  ghost predicate OfSends(handlings: seq<Handling>, sends: seq<Send>) {
    forall i :: 0 <= i < |handlings| ==>
      exists j :: 0 <= j < |sends| && handlings[i].number == sends[j].number && handlings[i].body == sends[j].body
                  && sends[j].at <= handlings[i].at
  }

  /** A Box that reaches the client is one the provider answered with. */
  ghost predicate Truthful(handlings: seq<Handling>, exchange: nat -> Exchange) {
    forall number :: exchange(number).Answer? ==>
      exists i :: 0 <= i < |handlings| && handlings[i].number == number
                  && ResponseAt(handlings, i) == Box(exchange(number).box)
  }

  /** One Box: whatever is lost, repeated or reordered, a provider that deals with every send before the request expires
      makes at most one Box, never sees the key with another body, and a success names that Box. */
  lemma {:induction false} AtMostOneBox(request: Request, retryAttempts: nat, clock: nat -> int,
                                        exchange: nat -> Exchange, handlings: seq<Handling>)
    requires 1 <= retryAttempts <= 8
    requires var sends := Call(request, retryAttempts, clock, exchange).sends;
             InOrder(handlings) && OfSends(handlings, sends)
    requires Truthful(handlings, exchange)
    requires forall i :: 0 <= i < |handlings| ==> handlings[i].at < request.expiresAt
    ensures After(handlings).boxes <= 1
    ensures forall i :: 0 <= i < |handlings| ==> ResponseAt(handlings, i) == Box(0)
    ensures var result := Call(request, retryAttempts, clock, exchange).result;
            result.Success? ==> After(handlings).boxes == 1 && result.box == 0
  {
    BoundedRetries(request, retryAttempts, clock, exchange);
    var body := request.body;
    assert SameBody(handlings, body);
    if handlings == [] {
    } else {
      OneBoxExactly(handlings, body);
    }
    forall i | 0 <= i < |handlings| ensures ResponseAt(handlings, i) == Box(0) {
      var past := handlings[..i];
      if past != [] {
        OneBoxExactly(past, body);
        MemoryOf(past, body);
      }
    }
  }

  /** The bound on handling is needed: two sends begun inside the window, the second one dealt with only after the
      provider has forgotten the key, make two Boxes. */
  lemma LateHandlingMakesTwo()
    ensures var request := Request(0, WINDOW_MILLIS, "key", "body");
            var clock := (n: nat) => n - 1;
            var exchange := (n: nat) => if n == 1 then Failed(Error(Transport, None, None)) else Answer(1);
            var sends := [Send(1, 0, "key", "body"), Send(2, 1, "key", "body")];
            var handlings := [Handling(1, 0, "body"), Handling(2, WINDOW_MILLIS, "body")];
            && Call(request, 2, clock, exchange) == Outcome(sends, Success(1))
            && InOrder(handlings) && OfSends(handlings, sends) && After(handlings).boxes == 2
            && ResponseAt(handlings, 1) == Box(1)
  {
    var handlings := [Handling(1, 0, "body"), Handling(2, WINDOW_MILLIS, "body")];
    var sends := [Send(1, 0, "key", "body"), Send(2, 1, "key", "body")];
    assert handlings[..1] == [handlings[0]];
    assert After([]) == Provider(None, 0);
    assert After(handlings[..1]) == Provider(Some(Memory(0, "body", 0)), 1);
    assert handlings[0].number == sends[0].number && handlings[1].number == sends[1].number;
  }

  // ----- the response body -----

  function Joined(chunks: seq<seq<int>>): seq<int> {
    if chunks == [] then [] else chunks[0] + Joined(chunks[1..])
  }

  lemma {:induction false} JoinedSnoc(chunks: seq<seq<int>>, chunk: seq<int>)
    ensures Joined(chunks + [chunk]) == Joined(chunks) + chunk
  {
    if chunks == [] {
      assert chunks + [chunk] == [chunk];
    } else {
      assert (chunks + [chunk])[1..] == chunks[1..] + [chunk];
      JoinedSnoc(chunks[1..], chunk);
    }
  }

  lemma {:induction false} JoinedPrefix(chunks: seq<seq<int>>, n: nat)
    requires n <= |chunks|
    ensures |Joined(chunks[..n])| <= |Joined(chunks)|
  {
    if n == 0 {
    } else {
      assert chunks[..n][1..] == chunks[1..][..n - 1];
      JoinedPrefix(chunks[1..], n - 1);
    }
  }

  /** `responseText` before decoding: all chunks together, unless the declared length or the running total breaks
      the bound. */
  method ReadBody(declared: Option<int>, chunks: seq<seq<int>>) returns (r: Option<seq<int>>)
    ensures r.Some? <==>
            (declared.Some? ==> 0 <= declared.value <= MAX_RESPONSE_BYTES) && |Joined(chunks)| <= MAX_RESPONSE_BYTES
    ensures r.Some? ==> r.value == Joined(chunks)
  {
    if declared.Some? && (declared.value < 0 || declared.value > MAX_RESPONSE_BYTES) { return None; }
    var bytes: seq<int> := [];
    for i := 0 to |chunks|
      invariant bytes == Joined(chunks[..i]) && |bytes| <= MAX_RESPONSE_BYTES
    {
      assert chunks[..i + 1] == chunks[..i] + [chunks[i]];
      JoinedSnoc(chunks[..i], chunks[i]);
      JoinedPrefix(chunks, i + 1);
      if |bytes| + |chunks[i]| > MAX_RESPONSE_BYTES { return None; }
      bytes := bytes + chunks[i];
    }
    assert chunks[..|chunks|] == chunks;
    return Some(bytes);
  }
}
