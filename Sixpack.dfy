/**
 * The struct-based client of sixpack.go: `Test.Participate`, `Test.Convert`
 * and the round trip they share, `Test.request`. Everything that leaves the
 * process is an oracle passed in by the caller: the generated UUID, and the
 * outcome of parsing the base URL, sending the GET, reading the body and
 * decoding it as JSON.
 */
module Sixpack {
  import opened Wrappers
  import opened NameGrammar
  import opened UrlValues

  // Query parameter names and endpoint paths sent to the sixpack server.
  const ClientIdKey := "client_id"
  const IpAddressKey := "ip_address"
  const UserAgentKey := "user_agent"
  const ExperimentKey := "experiment"
  const TrafficFractionKey := "traffic_fraction"
  const ForceKey := "force"
  const AlternativesKey := "alternatives"
  const KpiKey := "kpi"
  const ParticipatePath := "/participate"
  const ConvertPath := "/convert"

  /** `http.StatusInternalServerError`. */
  const StatusInternalServerError := 500

  /**
   * One experiment. `fraction` is the traffic fraction already formatted as
   * `%.2f` of the float32 field; the formatting itself is not modelled.
   */
  datatype Test = Test(url: string, name: string, alternatives: seq<string>, fraction: string)

  /** The decoded JSON body of a sixpack reply. */
  datatype Response = Response(status: string, clientId: string, alternative: AlternativeField, experiment: ExperimentField)
  datatype AlternativeField = AlternativeField(name: string)
  datatype ExperimentField = ExperimentField(version: int, name: string)

  /**
   * What `json.Unmarshal` does to `var r *Response`: fills it, leaves it nil
   * (the body is the JSON literal `null`), or fails, possibly after
   * allocating and partly filling it.
   */
  datatype Decoding = Decoded(response: Response) | DecodedNull | Undecodable(partial: Option<Response>)

  /** The oracle for everything `request` does outside the process, in the order it does it. */
  datatype Outcome =
    | UrlParseFailed                  // url.Parse(six.URL) failed
    | TransportFailed                 // client.Get failed (including the 250 ms dial timeout)
    | ReadFailed                      // ioutil.ReadAll of the body failed
    | Status(code: int, body: Decoding)

  datatype Error =
    | IdGenerationFailed
    | BadExperimentName
    | TooFewAlternatives
    | BadAlternativeName(alternative: string)
    | UrlParseError
    | TransportError
    | ReadError
    | InternalServerError
    | DecodeError
    | NullResponse

  /**
   * The text of the errors sixpack.go builds itself; the others come from
   * libraries. `NullResponse` exists only in the corrected request, so its
   * text is this model's own.
   */
  function Message(e: Error): Option<string>
  {
    match e
    case BadExperimentName => Some("Bad experiment name")
    case TooFewAlternatives => Some("Must specify at least 2 alternatives")
    case BadAlternativeName(alt) => Some("Bad alternative name: " + alt)
    case InternalServerError => Some("StatusInternalServerError")
    case NullResponse => Some("null response")
    case _ => None
  }

  /** The three results of `Participate`, `Convert` and `request`: the alternative, the *Response and the error. */
  datatype Reply = Reply(alternative: string, response: Option<Response>, error: Option<Error>)

  /** The request handed to `request`: the endpoint and its query parameters. */
  datatype Call = Call(endpoint: string, query: Query)

  // ---------------------------------------------------------------------------
  // request

  /** `request` can compute its default without indexing past the alternatives. */
  predicate HasDefault(six: Test, params: Query)
  {
    First(params, ForceKey) != "" || |six.alternatives| > 0
  }

  /** The local fallback: the forced alternative when one is sent, else the first alternative. */
  function DefaultAlternative(six: Test, params: Query): string
    requires HasDefault(six, params)
  {
    var force := First(params, ForceKey);
    if force != "" then force else six.alternatives[0]
  }

  /** The only outcome that is not a failure: a non-500 status whose body decodes to a record. */
  predicate Succeeded(net: Outcome)
  {
    net.Status? && net.code != StatusInternalServerError && net.body.Decoded?
  }

  /**
   * `Test.request`, with the body `null` treated as a failure (see
   * RequestAsWritten for the code as it stands). Every failure yields the
   * local default and an error; only a decoded reply replaces the default
   * with the server's choice.
   */
  function Request(six: Test, params: Query, net: Outcome): (r: Reply)
    requires HasDefault(six, params)
    ensures r.error.None? <==> Succeeded(net)
    ensures Succeeded(net) ==> r.alternative == net.body.response.alternative.name && r.response == Some(net.body.response)
    ensures !Succeeded(net) ==> r.alternative == DefaultAlternative(six, params)
    ensures r.response.Some? ==> net.Status? && net.code != StatusInternalServerError && !net.body.DecodedNull?
    ensures net.UrlParseFailed? ==> r.error == Some(UrlParseError) && r.response == None
    ensures net.TransportFailed? ==> r.error == Some(TransportError) && r.response == None
    ensures net.ReadFailed? ==> r.error == Some(ReadError) && r.response == None
    ensures net.Status? && net.code == StatusInternalServerError ==> r.error == Some(InternalServerError)
    ensures net.Status? && net.code != StatusInternalServerError && net.body.Undecodable? ==>
              r.error == Some(DecodeError) && r.response == net.body.partial
    ensures net.Status? && net.code != StatusInternalServerError && net.body.DecodedNull? ==>
              r.error == Some(NullResponse) && r.response == None
  {
    var def := DefaultAlternative(six, params);
    match net
    case UrlParseFailed => Reply(def, None, Some(UrlParseError))
    case TransportFailed => Reply(def, None, Some(TransportError))
    case ReadFailed => Reply(def, None, Some(ReadError))
    case Status(code, body) =>
      if code == StatusInternalServerError then Reply(def, None, Some(InternalServerError))
      else
        match body
        case Undecodable(partial) => Reply(def, partial, Some(DecodeError))
        case DecodedNull => Reply(def, None, Some(NullResponse))
        case Decoded(resp) => Reply(resp.alternative.name, Some(resp), None)
  }

  /** How `request` as written ends: it returns, or the Go runtime panics. */
  datatype Ending = Returned(reply: Reply) | Panicked

  /**
   * `Test.request` exactly as written. It panics when there is no force and
   * no alternative (`six.Alternatives[0]` out of range), and when a non-500
   * body is `null`: `json.Unmarshal` then leaves `r` nil without an error and
   * `r.Alternative.Name` dereferences it.
   */
  function RequestAsWritten(six: Test, params: Query, net: Outcome): (e: Ending)
    ensures e.Panicked? <==>
              !HasDefault(six, params) ||
              (net.Status? && net.code != StatusInternalServerError && net.body.DecodedNull?)
    ensures e.Returned? ==> e.reply.error.Some? ==> e.reply.alternative == DefaultAlternative(six, params)
  {
    if !HasDefault(six, params) then Panicked
    else
      var def := DefaultAlternative(six, params);
      match net
      case UrlParseFailed => Returned(Reply(def, None, Some(UrlParseError)))
      case TransportFailed => Returned(Reply(def, None, Some(TransportError)))
      case ReadFailed => Returned(Reply(def, None, Some(ReadError)))
      case Status(code, body) =>
        if code == StatusInternalServerError then Returned(Reply(def, None, Some(InternalServerError)))
        else
          match body
          case Undecodable(partial) => Returned(Reply(def, partial, Some(DecodeError)))
          case DecodedNull => Panicked
          case Decoded(resp) => Returned(Reply(resp.alternative.name, Some(resp), None))
  }

  /** A 200 reply whose body is `null` crashes the code as written; the corrected request falls back to the default. */
  lemma NullBodyPanicsAsWritten(six: Test, params: Query)
    requires HasDefault(six, params)
    ensures RequestAsWritten(six, params, Status(200, DecodedNull)) == Panicked
    ensures Request(six, params, Status(200, DecodedNull)) == Reply(DefaultAlternative(six, params), None, Some(NullResponse))
  {
  }

  /** Apart from the `null` body, the corrected request returns exactly what the code as written returns. */
  lemma RequestAgreesWithWritten(six: Test, params: Query, net: Outcome)
    requires HasDefault(six, params)
    requires !(net.Status? && net.code != StatusInternalServerError && net.body.DecodedNull?)
    ensures RequestAsWritten(six, params, net) == Returned(Request(six, params, net))
  {
  }

  // ---------------------------------------------------------------------------
  // Participate

  /** The client id sent: the caller's when non-empty, else the generated one. */
  function ResolvedClientId(clientId: string, newId: Option<string>): string
    requires clientId != "" || newId.Some?
  {
    if clientId != "" then clientId else newId.value
  }

  /** The index of the first name that fails the grammar, in list order, or None when all match. */
  function FirstBadName(names: seq<string>): (r: Option<nat>)
    ensures r.None? <==> forall i :: 0 <= i < |names| ==> MatchString(names[i])
    ensures r.Some? ==>
              r.value < |names| && !MatchString(names[r.value]) &&
              forall j :: 0 <= j < r.value ==> MatchString(names[j])
  {
    if names == [] then None
    else if !MatchString(names[0]) then Some(0)
    else
      match FirstBadName(names[1..])
      case None => None
      case Some(k) => Some(k + 1)
  }

  /** A `params.Set(key, value)` guarded by `cond`, as the source writes its optional parameters. */
  function SetWhen(q: Query, cond: bool, key: string, value: string): Query
  {
    if cond then q[key := [value]] else q
  }

  /** The parameters as `Participate`'s `Set` and `Add` calls leave them. */
  ghost function ParticipateQuery(six: Test, id: string, ip: string, userAgent: string, force: string): Query
  {
    var q := SetWhen(SetWhen(map[ClientIdKey := [id]], ip != "", IpAddressKey, ip), userAgent != "", UserAgentKey, userAgent);
    var q := SetWhen(q[ExperimentKey := [six.name]][TrafficFractionKey := [six.fraction]], force != "", ForceKey, force);
    if six.alternatives == [] then q else q[AlternativesKey := six.alternatives]
  }

  /** What the `Set`/`Add` sequence builds is exactly the query `IsParticipateQuery` describes. */
  lemma ParticipateQueryShape(six: Test, id: string, ip: string, userAgent: string, force: string)
    ensures IsParticipateQuery(ParticipateQuery(six, id, ip, userAgent, force), six, id, ip, userAgent, force)
  {
  }

  /**
   * The parameters `Participate` sends: client id, experiment and traffic
   * fraction once each; IP address, user agent and force once each and only
   * when non-empty; every alternative in the caller's order; nothing else.
   */
  predicate IsParticipateQuery(q: Query, six: Test, id: string, ip: string, userAgent: string, force: string)
  {
    && q.Keys == {ClientIdKey, ExperimentKey, TrafficFractionKey}
                 + (if six.alternatives != [] then {AlternativesKey} else {})
                 + (if ip != "" then {IpAddressKey} else {})
                 + (if userAgent != "" then {UserAgentKey} else {})
                 + (if force != "" then {ForceKey} else {})
    && q[ClientIdKey] == [id]
    && q[ExperimentKey] == [six.name]
    && q[TrafficFractionKey] == [six.fraction]
    && ValuesOf(q, AlternativesKey) == six.alternatives
    && (ip != "" ==> q[IpAddressKey] == [ip])
    && (userAgent != "" ==> q[UserAgentKey] == [userAgent])
    && (force != "" ==> q[ForceKey] == [force])
  }

  /**
   * The parameter building of `Participate`: the single-valued parameters
   * with `Set`, then every alternative appended in order with `Add`.
   */
  method ParticipateParams(six: Test, id: string, ip: string, userAgent: string, force: string)
    returns (query: Query)
    ensures IsParticipateQuery(query, six, id, ip, userAgent, force)
  {
    var params := new Values();
    params.Set(ClientIdKey, id);
    if ip != "" {
      params.Set(IpAddressKey, ip);
    }
    if userAgent != "" {
      params.Set(UserAgentKey, userAgent);
    }
    params.Set(ExperimentKey, six.name);
    params.Set(TrafficFractionKey, six.fraction);
    if force != "" {
      params.Set(ForceKey, force);
    }

    ghost var base := params.entries;
    for k := 0 to |six.alternatives|
      invariant params.entries == if k == 0 then base else base[AlternativesKey := six.alternatives[..k]]
    {
      params.Add(AlternativesKey, six.alternatives[k]);
      assert six.alternatives[..k] + [six.alternatives[k]] == six.alternatives[..k + 1];
    }
    assert six.alternatives[..|six.alternatives|] == six.alternatives;

    query := params.entries;
    assert query == ParticipateQuery(six, id, ip, userAgent, force);
    ParticipateQueryShape(six, id, ip, userAgent, force);
  }

  /**
   * `Test.Participate`. The checks run in the source's order (client id,
   * experiment name, number of alternatives, each alternative) and the first
   * that fails returns `force` with its error and sends nothing; otherwise
   * the parameters are built and `request` is called.
   */
  method Participate(six: Test, clientId: string, ip: string, userAgent: string, force: string,
                     newId: Option<string>, net: Outcome)
    returns (reply: Reply, call: Option<Call>)
    ensures clientId == "" && newId.None? ==>
              reply == Reply(force, None, Some(IdGenerationFailed)) && call == None
    ensures (clientId != "" || newId.Some?) && !MatchString(six.name) ==>
              reply == Reply(force, None, Some(BadExperimentName)) && call == None
    ensures (clientId != "" || newId.Some?) && MatchString(six.name) && |six.alternatives| < 2 ==>
              reply == Reply(force, None, Some(TooFewAlternatives)) && call == None
    ensures (clientId != "" || newId.Some?) && MatchString(six.name) && |six.alternatives| >= 2 &&
            FirstBadName(six.alternatives).Some? ==>
              reply == Reply(force, None, Some(BadAlternativeName(six.alternatives[FirstBadName(six.alternatives).value]))) &&
              call == None
    ensures call.Some? <==>
              (clientId != "" || newId.Some?) && MatchString(six.name) && |six.alternatives| >= 2 &&
              FirstBadName(six.alternatives).None?
    ensures call.Some? ==>
              && call.value.endpoint == ParticipatePath
              && IsParticipateQuery(call.value.query, six, ResolvedClientId(clientId, newId), ip, userAgent, force)
              && reply == Request(six, call.value.query, net)
    ensures call.Some? && !(net.Status? && net.code != StatusInternalServerError && net.body.DecodedNull?) ==>
              RequestAsWritten(six, call.value.query, net) == Returned(reply)
    ensures call.Some? && net.Status? && net.code != StatusInternalServerError && net.body.DecodedNull? ==>
              RequestAsWritten(six, call.value.query, net) == Panicked
    ensures reply.error.Some? ==>
              reply.alternative == if call.Some? && force == "" then six.alternatives[0] else force
  {
    var id := clientId;
    if |id| == 0 {
      if newId.None? {
        return Reply(force, None, Some(IdGenerationFailed)), None;
      }
      id := newId.value;
    }

    if !MatchString(six.name) {
      return Reply(force, None, Some(BadExperimentName)), None;
    }

    if |six.alternatives| < 2 {
      return Reply(force, None, Some(TooFewAlternatives)), None;
    }

    for i := 0 to |six.alternatives|
      invariant forall j :: 0 <= j < i ==> MatchString(six.alternatives[j])
    {
      if !MatchString(six.alternatives[i]) {
        return Reply(force, None, Some(BadAlternativeName(six.alternatives[i]))), None;
      }
    }

    var query := ParticipateParams(six, id, ip, userAgent, force);
    reply := Request(six, query, net);
    call := Some(Call(ParticipatePath, query));
    if !(net.Status? && net.code != StatusInternalServerError && net.body.DecodedNull?) {
      RequestAgreesWithWritten(six, query, net);
    }
  }

  // ---------------------------------------------------------------------------
  // Convert

  /**
   * The parameters `Convert` sends: client id and experiment once each; IP
   * address, user agent and KPI once each and only when non-empty; nothing else.
   */
  predicate IsConvertQuery(q: Query, six: Test, id: string, ip: string, userAgent: string, kpi: string)
  {
    && q.Keys == {ClientIdKey, ExperimentKey}
                 + (if ip != "" then {IpAddressKey} else {})
                 + (if userAgent != "" then {UserAgentKey} else {})
                 + (if kpi != "" then {KpiKey} else {})
    && q[ClientIdKey] == [id]
    && q[ExperimentKey] == [six.name]
    && (ip != "" ==> q[IpAddressKey] == [ip])
    && (userAgent != "" ==> q[UserAgentKey] == [userAgent])
    && (kpi != "" ==> q[KpiKey] == [kpi])
  }

  /** The parameters as `Convert`'s `Set` calls leave them. */
  ghost function ConvertQuery(six: Test, id: string, ip: string, userAgent: string, kpi: string): Query
  {
    var q := SetWhen(SetWhen(map[ClientIdKey := [id]], ip != "", IpAddressKey, ip), userAgent != "", UserAgentKey, userAgent);
    SetWhen(q[ExperimentKey := [six.name]], kpi != "", KpiKey, kpi)
  }

  /** What the `Set` sequence builds is exactly the query `IsConvertQuery` describes. */
  lemma ConvertQueryShape(six: Test, id: string, ip: string, userAgent: string, kpi: string)
    ensures IsConvertQuery(ConvertQuery(six, id, ip, userAgent, kpi), six, id, ip, userAgent, kpi)
  {
  }

  /** The parameter building of `Convert`: single-valued parameters only, set with `Set`. */
  method ConvertParams(six: Test, id: string, ip: string, userAgent: string, kpi: string)
    returns (query: Query)
    ensures IsConvertQuery(query, six, id, ip, userAgent, kpi)
  {
    var params := new Values();
    params.Set(ClientIdKey, id);
    if ip != "" {
      params.Set(IpAddressKey, ip);
    }
    if userAgent != "" {
      params.Set(UserAgentKey, userAgent);
    }
    params.Set(ExperimentKey, six.name);
    if kpi != "" {
      params.Set(KpiKey, kpi);
    }

    query := params.entries;
    assert query == ConvertQuery(six, id, ip, userAgent, kpi);
    ConvertQueryShape(six, id, ip, userAgent, kpi);
  }

  /**
   * `Test.Convert`. Nothing is validated. A failed id generation returns ""
   * and sends nothing; otherwise the parameters are built and `request` is
   * called. Convert never sends `force`, so `request` falls back to the first
   * alternative, which therefore has to exist.
   */
  method Convert(six: Test, clientId: string, ip: string, userAgent: string, kpi: string,
                 newId: Option<string>, net: Outcome)
    returns (reply: Reply, call: Option<Call>)
    requires clientId != "" || newId.Some? ==> |six.alternatives| > 0
    ensures clientId == "" && newId.None? ==>
              reply == Reply("", None, Some(IdGenerationFailed)) && call == None
    ensures clientId != "" || newId.Some? ==>
              && call.Some?
              && call.value.endpoint == ConvertPath
              && IsConvertQuery(call.value.query, six, ResolvedClientId(clientId, newId), ip, userAgent, kpi)
              && reply == Request(six, call.value.query, net)
    ensures call.Some? && !(net.Status? && net.code != StatusInternalServerError && net.body.DecodedNull?) ==>
              RequestAsWritten(six, call.value.query, net) == Returned(reply)
    ensures call.Some? && net.Status? && net.code != StatusInternalServerError && net.body.DecodedNull? ==>
              RequestAsWritten(six, call.value.query, net) == Panicked
    ensures call.Some? ==>
              AlternativesKey !in call.value.query && ForceKey !in call.value.query &&
              TrafficFractionKey !in call.value.query
    ensures call.Some? && reply.error.Some? ==> reply.alternative == six.alternatives[0]
  {
    var id := clientId;
    if |id| == 0 {
      if newId.None? {
        return Reply("", None, Some(IdGenerationFailed)), None;
      }
      id := newId.value;
    }

    var query := ConvertParams(six, id, ip, userAgent, kpi);
    reply := Request(six, query, net);
    call := Some(Call(ConvertPath, query));
    if !(net.Status? && net.code != StatusInternalServerError && net.body.DecodedNull?) {
      RequestAgreesWithWritten(six, query, net);
    }
  }

  // ---------------------------------------------------------------------------
  // Properties of the parameters

  /** The description of the participate parameters leaves nothing open: at most one query fits it. */
  lemma ParticipateQueryUnique(q1: Query, q2: Query, six: Test, id: string, ip: string, userAgent: string, force: string)
    requires IsParticipateQuery(q1, six, id, ip, userAgent, force)
    requires IsParticipateQuery(q2, six, id, ip, userAgent, force)
    ensures q1 == q2
  {
  }

  /** The description of the convert parameters leaves nothing open: at most one query fits it. */
  lemma ConvertQueryUnique(q1: Query, q2: Query, six: Test, id: string, ip: string, userAgent: string, kpi: string)
    requires IsConvertQuery(q1, six, id, ip, userAgent, kpi)
    requires IsConvertQuery(q2, six, id, ip, userAgent, kpi)
    ensures q1 == q2
  {
  }

  /** The names of the participate example pass every check of `Participate`. */
  lemma ExampleNamesValid()
    ensures MatchString("test-package") && FirstBadName(["a", "b", "c", "d"]).None?
  {
    assert MatchString("test-package") by {
      var name := "test-package";
      assert forall i :: 1 <= i < |name| ==> IsTailChar(name[i]);
      MatchStringIff(name);
    }
    assert FirstBadName(["a", "b", "c", "d"]).None? by {
      assert MatchString("a") && MatchString("b") && MatchString("c") && MatchString("d");
    }
  }

  /**
   * The participate example: experiment `test-package`, alternatives a, b, c
   * and d, client id `my-user-client-id`, traffic fraction 0.55 and force `b`
   * give exactly the query below; a failed round trip then falls back to `b`.
   */
  lemma ExampleParticipate(q: Query, net: Outcome)
    requires IsParticipateQuery(q, Test("https://sixpack.test", "test-package", ["a", "b", "c", "d"], "0.55"),
                                "my-user-client-id", "", "", "b")
    ensures q == map[ClientIdKey := ["my-user-client-id"], ExperimentKey := ["test-package"],
                     TrafficFractionKey := ["0.55"], ForceKey := ["b"], AlternativesKey := ["a", "b", "c", "d"]]
    ensures !Succeeded(net) ==>
              Request(Test("https://sixpack.test", "test-package", ["a", "b", "c", "d"], "0.55"), q, net).alternative == "b"
  {
    var six := Test("https://sixpack.test", "test-package", ["a", "b", "c", "d"], "0.55");
    ParticipateQueryShape(six, "my-user-client-id", "", "", "b");
    ParticipateQueryUnique(q, ParticipateQuery(six, "my-user-client-id", "", "", "b"), six, "my-user-client-id", "", "", "b");
  }
}
