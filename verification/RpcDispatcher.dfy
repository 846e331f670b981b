/** Choosing and running a service: rocket/net/rpc/rpc_dispatcher.cc. */
module RpcDispatcher {
  import opened Bytes
  import opened TinyPB

  const DOT: byte := 46
  const ERROR_FAILED_DESERIALIZE: int32 := 10000003
  const ERROR_FAILED_SERIALIZE: int32 := 10000004
  const ERROR_SERVICE_NOT_FOUND: int32 := 10000008
  const ERROR_PARSE_SERVICE_NAME: int32 := 10000010
  // "serilize error"
  const SERIALIZE_ERROR: bytes := [115, 101, 114, 105, 108, 105, 122, 101, 32, 101, 114, 114, 111, 114]

  /** What a method makes of a request's payload, when it runs its closure once. */
  datatype Served = Unparsable | Unserializable | Response(pbData: bytes)

  type Service = map<bytes, bytes -> Served>

  /** A reply for the connection, or the error of a path that returns without replying. */
  datatype Dispatched = Answer(response: Message) | Dropped(errCode: int32)

  function IndexOf(s: bytes, c: byte): (i: nat)
    ensures i <= |s| && c !in s[..i]
    ensures i < |s| ==> s[i] == c
  {
    if s == [] || s[0] == c then 0 else 1 + IndexOf(s[1..], c)
  }

  /** The name before the first dot and the rest behind it. */
  function ParseServiceFullName(fullName: bytes): (r: Option<(bytes, bytes)>)
    ensures r.Some? <==> DOT in fullName
    ensures r.Some? ==> fullName == r.value.0 + [DOT] + r.value.1 && DOT !in r.value.0
  {
    var i := IndexOf(fullName, DOT);
    if i == |fullName| then None else Some((fullName[..i], fullName[i + 1..]))
  }

  function Dispatch(services: map<bytes, Service>, request: Message): Dispatched {
    match ParseServiceFullName(request.methodName)
    case None => Dropped(ERROR_PARSE_SERVICE_NAME)
    case Some((serviceName, methodName)) =>
      if serviceName !in services || methodName !in services[serviceName] then
        Dropped(ERROR_SERVICE_NOT_FOUND)
      else
        match services[serviceName][methodName](request.pbData)
        case Unparsable => Dropped(ERROR_FAILED_DESERIALIZE)
        case Unserializable =>
          Answer(Message(request.msgId, request.methodName, ERROR_FAILED_SERIALIZE, SERIALIZE_ERROR, []))
        case Response(pbData) =>
          Answer(Message(request.msgId, request.methodName, 0, [], pbData))
  }

  /** What the dispatcher owes to a request for method `m` of service `s`. */
  ghost predicate Serves(services: map<bytes, Service>, request: Message, s: bytes, m: bytes) {
    var d := Dispatch(services, request);
    if s !in services || m !in services[s] then d == Dropped(ERROR_SERVICE_NOT_FOUND)
    else
      match services[s][m](request.pbData)
      case Unparsable => d == Dropped(ERROR_FAILED_DESERIALIZE)
      case Unserializable =>
        && d.Answer? && d.response.errCode == ERROR_FAILED_SERIALIZE && d.response.errInfo == SERIALIZE_ERROR
        && d.response.pbData == []
      case Response(pbData) =>
        d.Answer? && d.response.errCode == 0 && d.response.errInfo == [] && d.response.pbData == pbData
  }

  /**
   * However a request's method name splits at its first dot, that service and method serve it; without
   * a dot it is dropped.  A reply echoes the id and the method name of its request.
   */
  lemma DispatchEchoes(services: map<bytes, Service>, request: Message)
    ensures var d := Dispatch(services, request);
            && (d.Answer? ==> d.response.msgId == request.msgId && d.response.methodName == request.methodName)
            && (DOT !in request.methodName <==> d == Dropped(ERROR_PARSE_SERVICE_NAME))
            && (forall s, m {:trigger s + [DOT] + m} ::
                  DOT !in s && request.methodName == s + [DOT] + m ==> Serves(services, request, s, m))
  {
    match ParseServiceFullName(request.methodName)
    case None =>
      forall s: bytes, m: bytes {:trigger s + [DOT] + m}
        ensures request.methodName != s + [DOT] + m
      {
        assert (s + [DOT] + m)[|s|] == DOT;
      }
    case Some((s, m)) =>
      assert request.methodName == s + [DOT] + m && request.methodName[|s|] == DOT;
      forall s', m' {:trigger s' + [DOT] + m'} | DOT !in s' && request.methodName == s' + [DOT] + m'
        ensures Serves(services, request, s', m')
      {
        FirstDotUnique(s, m, s', m');
      }
  }

  lemma FirstDotUnique(s: bytes, m: bytes, s': bytes, m': bytes)
    requires DOT !in s && DOT !in s' && s + [DOT] + m == s' + [DOT] + m'
    ensures s == s' && m == m'
  {
    var t, t' := s + [DOT] + m, s' + [DOT] + m';
    assert t[|s|] == DOT && t'[|s'|] == DOT;
    assert forall k :: 0 <= k < |s| ==> t[k] == s[k];
    assert forall k :: 0 <= k < |s'| ==> t'[k] == s'[k];
    assert |s| == |s'|;
    assert s == t[..|s|] && s' == t'[..|s|];
    assert m == t[|s| + 1..] && m' == t'[|s| + 1..];
  }
}
