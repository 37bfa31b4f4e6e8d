/** The client's batch call: one exchange with the server, and the replies handed to the callers' handlers. */
module Dispatch {
  import opened Wrappers

  /** Identifiers, with zero for the nil one. */
  type Id = nat

  const NIL_ID: Id := 0

  /** A callback, by name. */
  type Handler = nat

  /** A request with the handler its caller wants to be called; the handler may be nil. */
  datatype Request = Request(id: Id, version: string, handler: Option<Handler>)

  datatype RpcError = RpcError(code: int, message: string)

  datatype Reply = Reply(id: Id, version: string, error: Option<RpcError>, result: string)

  /** Why a batch call fails. */
  datatype Failure =
    | EmptyList
    | NotBuilt(reason: string)
    | NotSent(reason: string)
    | NotDecoded(status: nat, reason: string)
    | NoReplies(status: nat)
    | BadStatus(status: nat)

  /** What happens outside: the request cannot be built or sent, or there is an answer. `decoded` is what the
      decoder left in the slice of replies, even if it gave up half-way; a null entry is a nil pointer. */
  datatype Exchange =
    | BuildFails(reason: string)
    | SendFails(reason: string)
    | Answer(status: nat, giveUp: Option<string>, decoded: seq<Option<Reply>>)

  /** A handler called with an error, or nil, and a reply. */
  datatype Call = Call(handler: Handler, err: Option<Failure>, reply: Reply)

  // ---- what is promised ----

  /** The error tells what went wrong first. */
  predicate Reason(requests: seq<Request>, x: Exchange, err: Option<Failure>) {
    && (err == Some(EmptyList) <==> requests == [])
    && (requests != [] ==>
          && (x.BuildFails? ==> err == Some(NotBuilt(x.reason)))
          && (x.SendFails? ==> err == Some(NotSent(x.reason)))
          && (x.Answer? && x.giveUp.Some? ==> err == Some(NotDecoded(x.status, x.giveUp.value)))
          && (x.Answer? && x.giveUp.None? && x.decoded == [] ==> err == Some(NoReplies(x.status)))
          && (x.Answer? && x.giveUp.None? && x.decoded != [] && x.status >= 400 ==> err == Some(BadStatus(x.status))))
  }

  function ErrorReply(r: Request, message: string): Reply {
    Reply(r.id, r.version, Some(RpcError(0, message)), "")
  }

  /** The error reply to one request; there is none under the nil identifier. */
  function ErrorReplyTo(r: Request, message: string): seq<Option<Reply>> {
    if r.id == NIL_ID then [] else [Some(ErrorReply(r, message))]
  }

  /** One error reply for each request that has an identifier, in order. */
  function FanOut(requests: seq<Request>, message: string): seq<Option<Reply>> {
    if requests == [] then []
    else ErrorReplyTo(requests[0], message) + FanOut(requests[1..], message)
  }

  lemma {:induction false} FanOutConcat(a: seq<Request>, b: seq<Request>, message: string)
    ensures FanOut(a + b, message) == FanOut(a, message) + FanOut(b, message)
    decreases |a|
  {
    if a == [] {
      assert a + b == b;
    } else {
      assert (a + b)[1..] == a[1..] + b;
      FanOutConcat(a[1..], b, message);
    }
  }

  lemma FanOutNone(message: string)
    ensures FanOut([], message) == []
  {
  }

  lemma FanOutOneMore(requests: seq<Request>, i: nat, message: string)
    requires i < |requests|
    ensures FanOut(requests[..i + 1], message) == FanOut(requests[..i], message) + ErrorReplyTo(requests[i], message)
  {
    FanOutConcat(requests[..i], [requests[i]], message);
    assert requests[..i + 1] == requests[..i] + [requests[i]];
    assert FanOut([requests[i]], message) == ErrorReplyTo(requests[i], message) + FanOut([], message);
  }

  /** Each error reply is that to a request with an identifier, and there are no others. */
  lemma {:induction false} FanOutIs(requests: seq<Request>, message: string)
    ensures forall e :: e in FanOut(requests, message) <==>
              exists i :: 0 <= i < |requests| && requests[i].id != 0
                          && e == Some(Reply(requests[i].id, requests[i].version, Some(RpcError(0, message)), ""))
    ensures |FanOut(requests, message)| == |Named(requests)|
  {
    if requests != [] {
      FanOutIs(requests[1..], message);
      assert requests == [requests[0]] + requests[1..];
    }
  }

  /** The requests that have an identifier. */
  function Named(requests: seq<Request>): seq<Request> {
    if requests == [] then []
    else (if requests[0].id != 0 then [requests[0]] else []) + Named(requests[1..])
  }

  /** The last reply under an identifier. */
  function LastReply(replies: seq<Option<Reply>>, id: Id): Option<Reply> {
    if replies == [] then None
    else
      var last := replies[|replies| - 1];
      if last.Some? && last.value.id == id then last else LastReply(replies[..|replies| - 1], id)
  }

  /** The handler of the last request under an identifier. */
  function LastHandler(requests: seq<Request>, id: Id): Option<Handler> {
    if requests == [] then None
    else
      var last := requests[|requests| - 1];
      if last.id == id then last.handler else LastHandler(requests[..|requests| - 1], id)
  }

  /** The calls made: no two for one identifier, and exactly those that are due. */
  ghost predicate Dispatched(calls: seq<Call>, requests: seq<Request>, replies: seq<Option<Reply>>,
                             err: Option<Failure>)
  {
    (forall i, j :: 0 <= i < j < |calls| ==> calls[i].reply.id != calls[j].reply.id) &&
    (forall c :: c in calls <==> IsDue(c, requests, replies, err))
  }

  /** A call is due to the handler registered for the reply's identifier, with the last reply under it. */
  ghost predicate IsDue(c: Call, requests: seq<Request>, replies: seq<Option<Reply>>, err: Option<Failure>) {
    && c.err == err
    && LastHandler(requests, c.reply.id) == Some(c.handler)
    && LastReply(replies, c.reply.id) == Some(c.reply)
  }

  // ---- the code ----

  /** CallBatch with doBatchCall, its exits and its deferred fan-out. `text` renders a failure. */
  method CallBatch(requests: seq<Request>, x: Exchange, text: Failure -> string)
    returns (replies: seq<Option<Reply>>, err: Option<Failure>)
    ensures err.None? <==> requests != [] && x.Answer? && x.giveUp.None? && x.decoded != [] && x.status < 400
    ensures err.None? ==> replies == x.decoded
    ensures err.Some? ==>
              var keeps := requests != [] && x.Answer? && (x.status < 400 || (x.giveUp.None? && x.decoded != []));
              replies == (if keeps then x.decoded else []) + FanOut(requests, text(err.value))
    ensures Reason(requests, x, err)
  {
    if requests == [] {
      return [], Some(EmptyList);
    }
    replies, err := Exchanged(x);
    if err.Some? {
      hide ErrorReply, FanOut;
      ghost var kept := replies;
      var message := text(err.value);
      FanOutNone(message);
      for i := 0 to |requests|
        invariant replies == kept + FanOut(requests[..i], message)
      {
        FanOutOneMore(requests, i, message);
        if requests[i].id == NIL_ID {
          continue;
        }
        replies := replies + [Some(ErrorReply(requests[i], message))];
      }
      assert requests[..|requests|] == requests;
    }
  }

  /** The exits of doBatchCall before its deferred function runs. */
  method Exchanged(x: Exchange) returns (replies: seq<Option<Reply>>, err: Option<Failure>)
    ensures err.None? <==> x.Answer? && x.giveUp.None? && x.decoded != [] && x.status < 400
    ensures x.Answer? && (x.status < 400 || (x.giveUp.None? && x.decoded != [])) ==> replies == x.decoded
    ensures !(x.Answer? && (x.status < 400 || (x.giveUp.None? && x.decoded != []))) ==> replies == []
    ensures err != Some(EmptyList)
    ensures forall requests :: requests != [] ==> Reason(requests, x, err)
  {
    match x
    case BuildFails(reason) => return [], Some(NotBuilt(reason));
    case SendFails(reason) => return [], Some(NotSent(reason));
    case Answer(status, giveUp, decoded) =>
      replies := decoded;
      if giveUp.Some? {
        err := Some(NotDecoded(status, giveUp.value));
        if status >= 400 {
          return [], err;
        }
        return;
      }
      if |replies| == 0 {
        return [], Some(NoReplies(status));
      }
      if status >= 400 {
        return replies, Some(BadStatus(status));
      }
      return replies, None;
  }

  /** AsMap. None stands for the panic on a nil entry. */
  method AsMap(replies: seq<Option<Reply>>) returns (m: Option<map<Id, Reply>>)
    ensures m.None? <==> None in replies
    ensures m.Some? ==> forall id :: LastReply(replies, id) == if id in m.value then Some(m.value[id]) else None
  {
    var index: map<Id, Reply> := map[];
    for i := 0 to |replies|
      invariant None !in replies[..i]
      invariant forall id :: LastReply(replies[..i], id) == if id in index then Some(index[id]) else None
    {
      assert replies[..i + 1] == replies[..i] + [replies[i]];
      if replies[i].None? {
        return None;
      }
      index := index[replies[i].value.id := replies[i].value];
      assert replies[..i + 1][..i] == replies[..i];
    }
    assert replies[..|replies|] == replies;
    return Some(index);
  }

  /** The loop that fills the callback table. */
  method Callbacks(requests: seq<Request>) returns (table: map<Id, Option<Handler>>)
    ensures forall id :: LastHandler(requests, id) == if id in table then table[id] else None
  {
    table := map[];
    for i := 0 to |requests|
      invariant forall id :: LastHandler(requests[..i], id) == if id in table then table[id] else None
    {
      assert requests[..i + 1] == requests[..i] + [requests[i]];
      assert requests[..i + 1][..i] == requests[..i];
      table := table[requests[i].id := requests[i].handler];
    }
    assert requests[..|requests|] == requests;
  }

  /** Batch. The map of replies is visited in any order; None stands for the panic on a nil entry. */
  method Batch(requests: seq<Request>, x: Exchange, text: Failure -> string)
    returns (calls: Option<seq<Call>>, replies: seq<Option<Reply>>, err: Option<Failure>)
    ensures err.None? <==> requests != [] && x.Answer? && x.giveUp.None? && x.decoded != [] && x.status < 400
    ensures err.None? ==> replies == x.decoded
    ensures err.Some? ==>
              var keeps := requests != [] && x.Answer? && (x.status < 400 || (x.giveUp.None? && x.decoded != []));
              replies == (if keeps then x.decoded else []) + FanOut(requests, text(err.value))
    ensures Reason(requests, x, err)
    ensures calls.None? <==> None in replies
    ensures calls.Some? ==> Dispatched(calls.value, requests, replies, err)
  {
    var table := Callbacks(requests);
    replies, err := CallBatch(requests, x, text);
    var index := AsMap(replies);
    if index.None? {
      return None, replies, err;
    }
    forall id | id in index.value ensures index.value[id].id == id {
      LastReplyHasId(replies, id);
    }
    var ran := Invoke(table, index.value, err);
    forall c: Call ensures c in ran <==> IsDue(c, requests, replies, err) {
      assert c.reply.id in index.value <==> LastReply(replies, c.reply.id).Some?;
      if LastReply(replies, c.reply.id) == Some(c.reply) {
        LastReplyHasId(replies, c.reply.id);
      }
    }
    calls := Some(ran);
  }

  lemma {:induction false} LastReplyHasId(replies: seq<Option<Reply>>, id: Id)
    ensures LastReply(replies, id).Some? ==> LastReply(replies, id).value.id == id && LastReply(replies, id) in replies
  {
    if replies != [] {
      LastReplyHasId(replies[..|replies| - 1], id);
    }
  }

  /** The loop over the map of replies. */
  method Invoke(table: map<Id, Option<Handler>>, index: map<Id, Reply>, err: Option<Failure>) returns (calls: seq<Call>)
    requires forall id :: id in index ==> index[id].id == id
    ensures forall i, j :: 0 <= i < j < |calls| ==> calls[i].reply.id != calls[j].reply.id
    ensures forall c :: c in calls <==>
                        c.err == err && c.reply.id in index && index[c.reply.id] == c.reply &&
                        c.reply.id in table && table[c.reply.id] == Some(c.handler)
  {
    calls := [];
    var todo := index.Keys;
    while todo != {}
      invariant todo <= index.Keys
      invariant forall i, j :: 0 <= i < j < |calls| ==> calls[i].reply.id != calls[j].reply.id
      invariant forall c :: c in calls <==>
                            c.err == err && c.reply.id in index && c.reply.id !in todo &&
                            index[c.reply.id] == c.reply &&
                            c.reply.id in table && table[c.reply.id] == Some(c.handler)
      decreases |todo|
    {
      var id :| id in todo;
      todo := todo - {id};
      if id in table && table[id].Some? {
        calls := calls + [Call(table[id].value, err, index[id])];
      }
    }
  }

  // ---- what the callers see ----

  ghost predicate DistinctIds(requests: seq<Request>) {
    forall i, j :: 0 <= i < j < |requests| ==> requests[i].id != requests[j].id
  }

  /** No later request has the same identifier. */
  ghost predicate LastOfId(requests: seq<Request>, i: nat)
    requires i < |requests|
  {
    forall j :: i < j < |requests| ==> requests[j].id != requests[i].id
  }

  lemma {:induction false} HandlerOf(requests: seq<Request>, i: nat)
    requires i < |requests| && LastOfId(requests, i)
    ensures LastHandler(requests, requests[i].id) == requests[i].handler
    decreases |requests|
  {
    var n := |requests| - 1;
    if i < n {
      HandlerOf(requests[..n], i);
    }
  }

  lemma {:induction false} HandlerIsSomeones(requests: seq<Request>, id: Id) returns (i: nat)
    requires LastHandler(requests, id).Some?
    ensures i < |requests| && requests[i].id == id && requests[i].handler == LastHandler(requests, id)
    decreases |requests|
  {
    var n := |requests| - 1;
    if requests[n].id == id {
      i := n;
    } else {
      i := HandlerIsSomeones(requests[..n], id);
    }
  }

  /** Replies appended later win. */
  lemma {:induction false} LaterReplyWins(a: seq<Option<Reply>>, b: seq<Option<Reply>>, id: Id)
    ensures LastReply(a + b, id) == if LastReply(b, id).Some? then LastReply(b, id) else LastReply(a, id)
    decreases |b|
  {
    if b == [] {
      assert a + b == a;
    } else {
      var n := |b| - 1;
      assert (a + b)[..|a| + n] == a + b[..n];
      LaterReplyWins(a, b[..n], id);
    }
  }

  /** The fan-out answers the identifiers of the requests, except the nil one. */
  lemma {:induction false} FanOutAnswers(requests: seq<Request>, message: string, i: nat)
    requires i < |requests| && LastOfId(requests, i) && requests[i].id != NIL_ID
    ensures LastReply(FanOut(requests, message), requests[i].id) == Some(ErrorReply(requests[i], message))
    decreases |requests|
  {
    var r, n := requests[i], |requests| - 1;
    assert requests == requests[..n] + [requests[n]];
    FanOutConcat(requests[..n], [requests[n]], message);
    LaterReplyWins(FanOut(requests[..n], message), FanOut([requests[n]], message), r.id);
    assert FanOut([requests[n]], message) == ErrorReplyTo(requests[n], message) + FanOut([], message);
    if i < n {
      FanOutAnswers(requests[..n], message, i);
    }
  }

  /** The calls of a failed batch, in the order of the requests. */
  function ErrorCalls(requests: seq<Request>, err: Failure, message: string): seq<Call> {
    if requests == [] then []
    else
      var r := requests[0];
      (if r.handler.Some? then [Call(r.handler.value, Some(err), ErrorReply(r, message))] else []) +
      ErrorCalls(requests[1..], err, message)
  }

  lemma {:induction false} ErrorCallsAre(requests: seq<Request>, err: Failure, message: string)
    requires DistinctIds(requests)
    ensures forall c :: c in ErrorCalls(requests, err, message) <==>
                        exists i :: 0 <= i < |requests| && requests[i].handler == Some(c.handler) &&
                                    c.err == Some(err) && c.reply == ErrorReply(requests[i], message)
    ensures forall i, j :: 0 <= i < j < |ErrorCalls(requests, err, message)| ==>
              ErrorCalls(requests, err, message)[i].reply.id != ErrorCalls(requests, err, message)[j].reply.id
    decreases |requests|
  {
    if requests != [] {
      ErrorCallsAre(requests[1..], err, message);
    }
  }

  /** Two lists of calls without repeated identifiers and with the same elements are permutations. */
  lemma {:induction false} SameCalls(a: seq<Call>, b: seq<Call>)
    requires forall i, j :: 0 <= i < j < |a| ==> a[i].reply.id != a[j].reply.id
    requires forall i, j :: 0 <= i < j < |b| ==> b[i].reply.id != b[j].reply.id
    requires forall c :: c in a <==> c in b
    ensures multiset(a) == multiset(b)
  {
    forall c ensures multiset(a)[c] == multiset(b)[c] {
      OccursOnce(a, c);
      OccursOnce(b, c);
    }
  }

  lemma {:induction false} OccursOnce(a: seq<Call>, c: Call)
    requires forall i, j :: 0 <= i < j < |a| ==> a[i].reply.id != a[j].reply.id
    ensures multiset(a)[c] == if c in a then 1 else 0
    decreases |a|
  {
    if a != [] {
      var n := |a| - 1;
      assert a == a[..n] + [a[n]];
      OccursOnce(a[..n], c);
    }
  }

  /** When the call fails, whatever the exit, each handler runs exactly once, with the error and an error reply,
      under the request's identifier and version, that stands in for any real one; nothing else runs. */
  lemma {:induction false} FailureReachesEveryHandler(requests: seq<Request>, kept: seq<Option<Reply>>,
                                                      err: Failure, message: string, calls: seq<Call>)
    requires DistinctIds(requests) && forall r :: r in requests ==> r.id != NIL_ID
    requires Dispatched(calls, requests, kept + FanOut(requests, message), Some(err))
    ensures multiset(calls) == multiset(ErrorCalls(requests, err, message))
    ensures forall c :: c in calls ==>
              c.err == Some(err) && c.reply.error == Some(RpcError(0, message)) && c.reply.result == ""
    ensures forall i :: 0 <= i < |requests| && requests[i].handler.Some? ==>
              var reply := Reply(requests[i].id, requests[i].version, Some(RpcError(0, message)), "");
              multiset(calls)[Call(requests[i].handler.value, Some(err), reply)] == 1
  {
    var replies := kept + FanOut(requests, message);
    ErrorCallsAre(requests, err, message);
    forall c: Call ensures c in calls <==> c in ErrorCalls(requests, err, message) {
      if c in calls {
        assert IsDue(c, requests, replies, Some(err));
        var i := HandlerIsSomeones(requests, c.reply.id);
        FailedReply(requests, kept, message, i);
      }
      if c in ErrorCalls(requests, err, message) {
        var i :|
          0 <= i < |requests| && requests[i].handler == Some(c.handler) && c.reply == ErrorReply(requests[i], message);
        HandlerOf(requests, i);
        FailedReply(requests, kept, message, i);
        assert IsDue(c, requests, replies, Some(err));
      }
    }
    SameCalls(calls, ErrorCalls(requests, err, message));
    hide FanOut, LastReply, LastHandler, ErrorCalls, Dispatched;
    forall i | 0 <= i < |requests| && requests[i].handler.Some?
      ensures var reply := Reply(requests[i].id, requests[i].version, Some(RpcError(0, message)), "");
              multiset(calls)[Call(requests[i].handler.value, Some(err), reply)] == 1
    {
      FailureReachesTheLast(requests, kept, err, message, calls, i);
    }
  }

  /** With repeated identifiers the last request under each is served, the others are not. */
  lemma FailureReachesTheLast(requests: seq<Request>, kept: seq<Option<Reply>>, err: Failure, message: string,
                              calls: seq<Call>, i: nat)
    requires i < |requests| && LastOfId(requests, i) && requests[i].id != NIL_ID
    requires Dispatched(calls, requests, kept + FanOut(requests, message), Some(err))
    ensures var r := requests[i];
            var reply := Reply(r.id, r.version, Some(RpcError(0, message)), "");
            && (r.handler.Some? ==> multiset(calls)[Call(r.handler.value, Some(err), reply)] == 1)
            && (forall c :: c in calls && c.reply.id == r.id ==> Some(c.handler) == r.handler && c.reply == reply)
  {
    HandlerOf(requests, i);
    FailedReply(requests, kept, message, i);
    if requests[i].handler.Some? {
      var c := Call(requests[i].handler.value, Some(err), ErrorReply(requests[i], message));
      assert IsDue(c, requests, kept + FanOut(requests, message), Some(err));
      OccursOnce(calls, c);
    }
  }

  lemma FailedReply(requests: seq<Request>, kept: seq<Option<Reply>>, message: string, i: nat)
    requires i < |requests| && LastOfId(requests, i) && requests[i].id != NIL_ID
    ensures LastReply(kept + FanOut(requests, message), requests[i].id) == Some(ErrorReply(requests[i], message))
  {
    FanOutAnswers(requests, message, i);
    LaterReplyWins(kept, FanOut(requests, message), requests[i].id);
  }

  /** When the call succeeds, a request's handler runs exactly if there is a reply under its identifier, once,
      with no error and the last such reply; nothing runs for anything that was not asked. */
  lemma SuccessReachesTheAnswered(requests: seq<Request>, replies: seq<Option<Reply>>, calls: seq<Call>, i: nat)
    requires DistinctIds(requests) && i < |requests| && None !in replies
    requires Dispatched(calls, requests, replies, None)
    ensures (exists c :: c in calls && c.reply.id == requests[i].id) <==>
            requests[i].handler.Some? && exists k :: 0 <= k < |replies| && replies[k].value.id == requests[i].id
    ensures forall c :: c in calls && c.reply.id == requests[i].id ==>
              multiset(calls)[c] == 1 && Some(c.handler) == requests[i].handler && c.err.None? &&
              (exists k :: 0 <= k < |replies| && replies[k] == Some(c.reply) &&
                           forall l :: k < l < |replies| ==> replies[l].value.id != c.reply.id)
    ensures forall c :: c in calls ==> exists j :: 0 <= j < |requests| && requests[j].id == c.reply.id
  {
    var id := requests[i].id;
    HandlerOf(requests, i);
    LastReplyIsLast(replies, id);
    LastReplyHasId(replies, id);
    if requests[i].handler.Some? && LastReply(replies, id).Some? {
      var c := Call(requests[i].handler.value, None, LastReply(replies, id).value);
      assert IsDue(c, requests, replies, None);
      assert c in calls;
    }
    forall c | c in calls && c.reply.id == id ensures multiset(calls)[c] == 1 {
      OccursOnce(calls, c);
    }
    forall c | c in calls ensures exists j :: 0 <= j < |requests| && requests[j].id == c.reply.id {
      assert IsDue(c, requests, replies, None);
      var j := HandlerIsSomeones(requests, c.reply.id);
    }
  }

  lemma {:induction false} LastReplyIsLast(replies: seq<Option<Reply>>, id: Id)
    requires None !in replies
    ensures LastReply(replies, id).None? <==> forall k :: 0 <= k < |replies| ==> replies[k].value.id != id
    ensures LastReply(replies, id).Some? ==>
              exists k :: 0 <= k < |replies| && replies[k] == LastReply(replies, id) &&
                          forall l :: k < l < |replies| ==> replies[l].value.id != id
    decreases |replies|
  {
    if replies != [] {
      var n := |replies| - 1;
      LastReplyIsLast(replies[..n], id);
    }
  }
}
