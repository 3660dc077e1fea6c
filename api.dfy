/**
 * The service layer of the console (`ApiService` in `src/services/api.ts`):
 * the generic request with its error-message precedence, the health probe,
 * and the discovery run whose streamed body is reduced to a single outcome.
 * `fetch` is an input: an `Exchange` says how it settled.
 */
module Api {
  import opened Wrappers
  import opened Js
  import opened Text

  /** How a `fetch` settles: rejected, or with a response whose whole body is read as text. */
  datatype Exchange =
    | Rejected(error: Exception)
    | Response(status: nat, statusText: string, body: string)
  {
    /** `response.ok`: a status in the range 200-299. */
    predicate Ok() {
      Response? && 200 <= status <= 299
    }
  }

  /** The uniform envelope `{success, statusCode, data?, message?}`. */
  datatype Envelope = Envelope(success: bool, statusCode: int, data: Option<Json>, message: Option<string>)

  const UnreachableMessage: string :=
    "Unable to connect to server. Please check if the backend is running on port 8080."
  const HealthFailureMessage: string := "Backend server is not accessible"
  const NoDataMessage: string := "No valid data received from server"
  const FailedToFetch: string := "Failed to fetch"

  /** `HTTP error! status: ${response.status}`. */
  function HttpErrorMessage(status: nat): string {
    "HTTP error! status: " + NatToDecimal(status)
  }

  /**
   * The message of `new Error(v)`: a string is kept as it is; any other value
   * goes through JavaScript's `String(v)`, which is the parameter `show`.
   */
  function ErrorText(v: Json, show: Json -> string): string {
    if v.JString? then v.s else show(v)
  }

  // ===========================================================================
  // request: the error message of a failed response

  /** What the body of a non-OK response contributes to the error message. */
  datatype Detail =
    | Unreadable        // not JSON, or JSON `null` (reading `.message` throws)
    | NoMessage         // JSON whose `message` is absent or falsy
    | Message(value: Json)

  /** The inner `try` of `request`: `errorData.message`, or the reason it is of no use. */
  function ReadDetail(parse: JsonParse): (r: Detail)
    ensures r.Unreadable? <==> parse.SyntaxError? || parse == Parsed(JNull)
    ensures r.Message? <==> parse.Parsed? && parse.value.JObject? && "message" in parse.value.fields &&
                            Truthy(parse.value.fields["message"])
    ensures r.Message? ==> r.value == parse.value.fields["message"] && Truthy(r.value)
  {
    match parse
    case SyntaxError(_) => Unreadable
    case Parsed(errorData) =>
      match Get(errorData, "message")
      case ThrowsTypeError => Unreadable
      case Undefined => NoMessage
      case Found(m) => if Truthy(m) then Message(m) else NoMessage
  }

  /**
   * `request`: one HTTP exchange. A non-OK response fails with the body's
   * `message`, else (when the body cannot be read) the status text, else
   * `HTTP error! status: N`; a `TypeError` mentioning `Failed to fetch` is
   * replaced by a fixed message and every other error passes through unchanged.
   */
  method Request(exchange: Exchange, decode: Decoder, show: Json -> string) returns (r: Result<Json, Exception>)
    ensures exchange.Rejected? && exchange.error.TypeError? && Contains(exchange.error.message, FailedToFetch) ==>
              r == Failure(Error(UnreachableMessage))
    ensures exchange.Rejected? && !(exchange.error.TypeError? && Contains(exchange.error.message, FailedToFetch)) ==>
              r == Failure(exchange.error)
    ensures exchange.Response? && !exchange.Ok() && ReadDetail(decode(exchange.body)).Message? ==>
              r == Failure(Error(ErrorText(ReadDetail(decode(exchange.body)).value, show)))
    ensures exchange.Response? && !exchange.Ok() && ReadDetail(decode(exchange.body)).NoMessage? ==>
              r == Failure(Error(HttpErrorMessage(exchange.status)))
    ensures exchange.Response? && !exchange.Ok() && ReadDetail(decode(exchange.body)).Unreadable? ==>
              r == Failure(Error(if exchange.statusText != "" then exchange.statusText
                                     else HttpErrorMessage(exchange.status)))
    ensures exchange.Ok() && decode(exchange.body).Parsed? ==> r == Success(decode(exchange.body).value)
    ensures exchange.Ok() && decode(exchange.body).SyntaxError? ==>
              r == Failure(Error(decode(exchange.body).message))
  {
    var thrown: Exception;
    match exchange {
      case Rejected(e) =>
        thrown := e;
      case Response(status, statusText, body) =>
        if !exchange.Ok() {
          var errorMessage := HttpErrorMessage(status);
          match decode(body) {
            case Parsed(errorData) =>
              match Get(errorData, "message") {
                case Found(m) =>
                  if Truthy(m) {
                    errorMessage := ErrorText(m, show);
                  }
                case Undefined =>
                case ThrowsTypeError =>
                  errorMessage := if statusText != "" then statusText else errorMessage;
              }
            case SyntaxError(_) =>
              errorMessage := if statusText != "" then statusText else errorMessage;
          }
          thrown := Error(errorMessage);
        } else {
          match decode(body) {
            case Parsed(result) =>
              return Success(result);
            case SyntaxError(m) =>
              thrown := Error(m);
          }
        }
    }
    // the outer `catch`
    if thrown.TypeError? && Contains(thrown.message, FailedToFetch) {
      r := Failure(Error(UnreachableMessage));
    } else {
      r := Failure(thrown);
    }
  }

  // ===========================================================================
  // checkHealth

  /**
   * `checkHealth`: the decoded body of whatever response arrives; a rejected
   * fetch or an unparsable body both become one fixed error. The status is
   * never looked at.
   */
  function CheckHealth(exchange: Exchange, decode: Decoder): (r: Result<Json, Exception>)
    ensures r.Failure? ==> r.error == Error(HealthFailureMessage)
    ensures r.Success? <==> exchange.Response? && decode(exchange.body).Parsed?
    ensures r.Success? ==> r.value == decode(exchange.body).value
  {
    match exchange
    case Rejected(_) => Failure(Error(HealthFailureMessage))
    case Response(_, _, body) =>
      match decode(body)
      case Parsed(v) => Success(v)
      case SyntaxError(_) => Failure(Error(HealthFailureMessage))
  }

  /** A non-2xx response with a JSON body still counts as healthy. */
  lemma NonOkWithJsonIsHealthy(status: nat, statusText: string, body: string, decode: Decoder)
    requires !(200 <= status <= 299) && decode(body).Parsed?
    ensures CheckHealth(Response(status, statusText, body), decode) == Success(decode(body).value)
  {
  }

  // ===========================================================================
  // runDiscovery: reducing the streamed body

  /** The event prefix a line must start with, space included. */
  const DataPrefix: string := "data: "

  /** What one line of the body does to the two slots. */
  datatype LineEffect =
    | Ignored               // not a `data: ` line
    | Skipped               // a `data: ` line whose payload fails to parse, or is `null`
    | Accepted(payload: Json)
    | Final(payload: Json)

  /** The body of the `for` loop of `runDiscovery`, for one line. */
  function Classify(line: string, decode: Decoder): (r: LineEffect)
    ensures r.Ignored? <==> !StartsWith(line, DataPrefix)
    ensures r.Skipped? <==> StartsWith(line, DataPrefix) &&
                            (decode(line[|DataPrefix|..]).SyntaxError? || decode(line[|DataPrefix|..]) == Parsed(JNull))
    ensures r.Accepted? <==> StartsWith(line, DataPrefix) && decode(line[|DataPrefix|..]).Parsed? &&
                             var data := decode(line[|DataPrefix|..]).value;
                             data.JObject? && "status" in data.fields && data.fields["status"] == JString("accepted")
    ensures (r.Accepted? || r.Final?) ==> decode(line[|DataPrefix|..]) == Parsed(r.payload) && r.payload != JNull
  {
    if !StartsWith(line, DataPrefix) then Ignored
    else
      match decode(line[|DataPrefix|..])
      case SyntaxError(_) => Skipped
      case Parsed(data) =>
        match Get(data, "status")
        case ThrowsTypeError => Skipped
        case Undefined => Final(data)
        case Found(v) => if v == JString("accepted") then Accepted(data) else Final(data)
  }

  /** `acceptanceData` and `finalData`, with `None` for `null`. */
  datatype Slots = Slots(acceptance: Option<Json>, final: Option<Json>)

  function Absorb(slots: Slots, effect: LineEffect): Slots {
    match effect
    case Accepted(data) => slots.(acceptance := Some(data))
    case Final(data) => slots.(final := Some(data))
    case _ => slots
  }

  /** The slots after the loop has seen every line of `lines`, first to last. */
  function Scan(lines: seq<string>, decode: Decoder): Slots
    decreases |lines|
  {
    if lines == [] then Slots(None, None)
    else Absorb(Scan(lines[..|lines| - 1], decode), Classify(lines[|lines| - 1], decode))
  }

  /** `finalData || acceptanceData`, and the error when neither is there. */
  function Settle(slots: Slots): (r: Result<Envelope, Exception>)
    ensures TruthySlot(slots.final) ==> r == Success(Envelope(true, 200, slots.final, None))
    ensures !TruthySlot(slots.final) && TruthySlot(slots.acceptance) ==>
            r == Success(Envelope(true, 200, slots.acceptance, None))
    ensures !TruthySlot(slots.final) && !TruthySlot(slots.acceptance) ==> r == Failure(Error(NoDataMessage))
  {
    var responseData := Or(slots.final, slots.acceptance);
    if !TruthySlot(responseData) then Failure(Error(NoDataMessage))
    else Success(Envelope(true, 200, responseData, None))
  }

  /** What `runDiscovery` resolves or rejects with, for a given exchange. */
  function RunOutcome(exchange: Exchange, decode: Decoder): (r: Result<Envelope, Exception>)
    ensures exchange.Rejected? ==> r == Failure(exchange.error)
    ensures r.Success? ==> exchange.Response? && exchange.Ok() && r.value.success && r.value.statusCode == 200 &&
                           r.value.message.None? && TruthySlot(r.value.data)
    ensures exchange.Response? && r.Failure? ==>
            r.error == Error(HttpErrorMessage(exchange.status)) || r.error == Error(NoDataMessage)
  {
    match exchange
    case Rejected(e) => Failure(e)
    case Response(status, _, body) =>
      if !exchange.Ok() then Failure(Error(HttpErrorMessage(status)))
      else Settle(Scan(Split(body, '\n'), decode))
  }

  /**
   * `runDiscovery`: split the body on `\n`, keep the `data: ` lines, put each
   * decoded payload in the acceptance or the final slot, and answer with the
   * final payload if it is truthy, else the acceptance payload, else an error.
   */
  method RunDiscovery(exchange: Exchange, decode: Decoder) returns (r: Result<Envelope, Exception>)
    ensures r == RunOutcome(exchange, decode)
    ensures r.Success? ==> r.value == Envelope(true, 200, r.value.data, None) && TruthySlot(r.value.data)
  {
    if exchange.Rejected? {
      return Failure(exchange.error);
    }
    if !exchange.Ok() {
      return Failure(Error(HttpErrorMessage(exchange.status)));
    }
    var lines := Split(exchange.body, '\n');
    var acceptanceData: Option<Json> := None;
    var finalData: Option<Json> := None;
    for i := 0 to |lines|
      invariant Slots(acceptanceData, finalData) == Scan(lines[..i], decode)
    {
      assert lines[..i + 1][..i] == lines[..i];
      var line := lines[i];
      if StartsWith(line, DataPrefix) {
        match decode(line[|DataPrefix|..]) {
          case Parsed(data) =>
            match Get(data, "status") {
              case Found(v) =>
                if v == JString("accepted") {
                  acceptanceData := Some(data);
                } else {
                  finalData := Some(data);
                }
              case Undefined =>
                finalData := Some(data);
              case ThrowsTypeError =>
                // `data.status` on `null` throws inside the `try`: the line is skipped
            }
          case SyntaxError(_) =>
        }
      }
    }
    assert lines[..|lines|] == lines;
    var responseData := Or(finalData, acceptanceData);
    if !TruthySlot(responseData) {
      return Failure(Error(NoDataMessage));
    }
    r := Success(Envelope(true, 200, responseData, None));
  }

  // ---------------------------------------------------------------------------
  // Properties of the reduction

  /** A non-OK run fails with the status before any line of the body is looked at. */
  lemma NotOkIgnoresBody(status: nat, statusText: string, body1: string, body2: string, decode: Decoder)
    requires !(200 <= status <= 299)
    ensures RunOutcome(Response(status, statusText, body1), decode)
         == RunOutcome(Response(status, statusText, body2), decode)
         == Failure(Error(HttpErrorMessage(status)))
  {
  }

  /** The acceptance slot holds the payload of the last accepted line, and is empty when there is none. */
  lemma {:induction false} AcceptanceIsLastAccepted(lines: seq<string>, decode: Decoder)
    ensures Scan(lines, decode).acceptance.None? <==>
              forall i :: 0 <= i < |lines| ==> !Classify(lines[i], decode).Accepted?
    ensures Scan(lines, decode).acceptance.Some? ==>
              exists i :: 0 <= i < |lines| && Classify(lines[i], decode) == Accepted(Scan(lines, decode).acceptance.value)
                          && forall j :: i < j < |lines| ==> !Classify(lines[j], decode).Accepted?
  {
    if lines != [] {
      var init := lines[..|lines| - 1];
      AcceptanceIsLastAccepted(init, decode);
      assert forall i :: 0 <= i < |init| ==> init[i] == lines[i];
      var s := Scan(lines, decode);
      if !Classify(lines[|lines| - 1], decode).Accepted? {
        if s.acceptance.Some? {
          var i :| 0 <= i < |init| && Classify(init[i], decode) == Accepted(s.acceptance.value)
                   && forall j :: i < j < |init| ==> !Classify(init[j], decode).Accepted?;
          assert forall j :: i < j < |lines| ==> !Classify(lines[j], decode).Accepted?;
        }
      }
    }
  }

  /** The final slot holds the payload of the last non-accepted line, and is empty when there is none. */
  lemma {:induction false} FinalIsLastFinal(lines: seq<string>, decode: Decoder)
    ensures Scan(lines, decode).final.None? <==>
              forall i :: 0 <= i < |lines| ==> !Classify(lines[i], decode).Final?
    ensures Scan(lines, decode).final.Some? ==>
              exists i :: 0 <= i < |lines| && Classify(lines[i], decode) == Final(Scan(lines, decode).final.value)
                          && forall j :: i < j < |lines| ==> !Classify(lines[j], decode).Final?
  {
    if lines != [] {
      var init := lines[..|lines| - 1];
      FinalIsLastFinal(init, decode);
      assert forall i :: 0 <= i < |init| ==> init[i] == lines[i];
      var s := Scan(lines, decode);
      if !Classify(lines[|lines| - 1], decode).Final? {
        if s.final.Some? {
          var i :| 0 <= i < |init| && Classify(init[i], decode) == Final(s.final.value)
                   && forall j :: i < j < |init| ==> !Classify(init[j], decode).Final?;
          assert forall j :: i < j < |lines| ==> !Classify(lines[j], decode).Final?;
        }
      }
    }
  }

  /** Scanning `a + b` is scanning `b` starting from the slots left by `a`. */
  function ScanFrom(slots: Slots, lines: seq<string>, decode: Decoder): Slots
    decreases |lines|
  {
    if lines == [] then slots
    else Absorb(ScanFrom(slots, lines[..|lines| - 1], decode), Classify(lines[|lines| - 1], decode))
  }

  lemma {:induction false} ScanAppend(a: seq<string>, b: seq<string>, decode: Decoder)
    ensures Scan(a + b, decode) == ScanFrom(Scan(a, decode), b, decode)
    decreases |b|
  {
    if b == [] {
      assert a + b == a;
    } else {
      var b' := b[..|b| - 1];
      ScanAppend(a, b', decode);
      assert (a + b)[..|a + b| - 1] == a + b';
    }
  }

  /** A line that is ignored or skipped can be removed without changing the outcome: one bad line never fails the run. */
  lemma {:induction false} InertLine(a: seq<string>, line: string, b: seq<string>, decode: Decoder)
    requires Classify(line, decode).Ignored? || Classify(line, decode).Skipped?
    ensures Scan(a + [line] + b, decode) == Scan(a + b, decode)
  {
    ScanAppend(a + [line], b, decode);
    ScanAppend(a, b, decode);
    assert (a + [line])[..|a + [line]| - 1] == a;
  }

  /** An accepted line and a final line next to each other can trade places: the order of the two kinds does not matter. */
  lemma {:induction false} AcceptedAndFinalCommute(a: seq<string>, x: string, y: string, b: seq<string>, decode: Decoder)
    requires Classify(x, decode).Accepted? && Classify(y, decode).Final?
    ensures Scan(a + [x, y] + b, decode) == Scan(a + [y, x] + b, decode)
  {
    ScanAppend(a + [x, y], b, decode);
    ScanAppend(a + [y, x], b, decode);
    assert (a + [x, y])[..|a + [x, y]| - 1] == a + [x];
    assert (a + [x])[..|a + [x]| - 1] == a;
    assert (a + [y, x])[..|a + [y, x]| - 1] == a + [y];
    assert (a + [y])[..|a + [y]| - 1] == a;
  }

  /** Only an object can carry `status: "accepted"`, so a filled acceptance slot is always truthy. */
  lemma {:induction false} AcceptanceIsTruthy(lines: seq<string>, decode: Decoder)
    ensures Scan(lines, decode).acceptance.Some? ==> Truthy(Scan(lines, decode).acceptance.value)
  {
    if lines != [] {
      AcceptanceIsTruthy(lines[..|lines| - 1], decode);
    }
  }

  /**
   * The outcome of an OK run: the last final payload when it is truthy;
   * otherwise the last accepted payload; otherwise "No valid data received".
   */
  lemma OutcomeOfOkRun(status: nat, statusText: string, body: string, decode: Decoder)
    requires 200 <= status <= 299
    ensures var s := Scan(Split(body, '\n'), decode);
            var r := RunOutcome(Response(status, statusText, body), decode);
            && (TruthySlot(s.final) ==> r == Success(Envelope(true, 200, s.final, None)))
            && (!TruthySlot(s.final) && s.acceptance.Some? ==> r == Success(Envelope(true, 200, s.acceptance, None)))
            && (!TruthySlot(s.final) && s.acceptance.None? ==> r == Failure(Error(NoDataMessage)))
  {
    AcceptanceIsTruthy(Split(body, '\n'), decode);
  }

  /** A body in which no line is accepted or final fails with "No valid data received from server". */
  lemma NoEventsFails(status: nat, statusText: string, body: string, decode: Decoder)
    requires 200 <= status <= 299
    requires forall line :: line in Split(body, '\n') ==>
               Classify(line, decode).Ignored? || Classify(line, decode).Skipped?
    ensures RunOutcome(Response(status, statusText, body), decode) == Failure(Error(NoDataMessage))
  {
    var lines := Split(body, '\n');
    AcceptanceIsLastAccepted(lines, decode);
    FinalIsLastFinal(lines, decode);
    assert forall i :: 0 <= i < |lines| ==> lines[i] in lines;
  }

  // ---------------------------------------------------------------------------
  // Worked examples

  /** The accepted and the final payload of the examples below. */
  const Queued: Json := JObject(map["status" := JString("accepted"), "message" := JString("queued")])
  const Done: Json := JObject(map["message" := JString("done"), "success" := JBool(true)])

  /** The slots after three lines, one step per line. */
  lemma ScanThree(l0: string, l1: string, l2: string, decode: Decoder)
    ensures Scan([l0, l1, l2], decode)
         == Absorb(Absorb(Absorb(Slots(None, None), Classify(l0, decode)), Classify(l1, decode)), Classify(l2, decode))
  {
    assert [l0, l1, l2][..2] == [l0, l1];
    assert [l0, l1][..1] == [l0];
    assert [l0][..0] == [];
    assert Scan([l0], decode) == Absorb(Slots(None, None), Classify(l0, decode));
    assert Scan([l0, l1], decode) == Absorb(Scan([l0], decode), Classify(l1, decode));
  }

  /** A body of two newline-terminated lines splits into those lines and a trailing empty one. */
  lemma SplitTwoLines(l0: string, l1: string)
    requires '\n' !in l0 && '\n' !in l1
    ensures Split(l0 + "\n" + l1 + "\n", '\n') == [l0, l1, ""]
  {
    var lines := [l0, l1, ""];
    assert Join(lines[2..], '\n') == "";
    assert Join(lines[1..], '\n') == l1 + "\n";
    assert Join(lines, '\n') == l0 + "\n" + l1 + "\n";
    SplitJoin(lines, '\n');
  }

  /** The payload of a `data: ` line is the text after the six-character prefix. */
  lemma DataLinePayload(p: string)
    ensures StartsWith(DataPrefix + p, DataPrefix) && (DataPrefix + p)[|DataPrefix|..] == p
  {
  }

  /** An accepted event followed by a final event: the final payload is the outcome. */
  lemma AcceptedThenFinalExample(q: string, d: string, decode: Decoder)
    requires '\n' !in q && '\n' !in d
    requires decode(q) == Parsed(Queued) && decode(d) == Parsed(Done)
    ensures RunOutcome(Response(200, "OK", DataPrefix + q + "\n" + DataPrefix + d + "\n"), decode)
         == Success(Envelope(true, 200, Some(Done), None))
  {
    assert DataPrefix + q + "\n" + DataPrefix + d + "\n" == (DataPrefix + q) + "\n" + (DataPrefix + d) + "\n";
    SplitTwoLines(DataPrefix + q, DataPrefix + d);
    DataLinePayload(q);
    DataLinePayload(d);
    ScanThree(DataPrefix + q, DataPrefix + d, "", decode);
  }

  /** A malformed `data: ` line before a final event is skipped; the final event is the outcome. */
  lemma MalformedLineExample(bad: string, d: string, decode: Decoder)
    requires '\n' !in bad && '\n' !in d
    requires decode(bad).SyntaxError? && decode(d) == Parsed(Done)
    ensures RunOutcome(Response(200, "OK", DataPrefix + bad + "\n" + DataPrefix + d + "\n"), decode)
         == Success(Envelope(true, 200, Some(Done), None))
  {
    assert DataPrefix + bad + "\n" + DataPrefix + d + "\n" == (DataPrefix + bad) + "\n" + (DataPrefix + d) + "\n";
    SplitTwoLines(DataPrefix + bad, DataPrefix + d);
    DataLinePayload(bad);
    DataLinePayload(d);
    ScanThree(DataPrefix + bad, DataPrefix + d, "", decode);
  }

  /** A falsy final payload (the number `0`) loses to an earlier acceptance payload. */
  lemma FalsyFinalLosesExample(q: string, z: string, decode: Decoder)
    requires '\n' !in q && '\n' !in z
    requires decode(q) == Parsed(Queued) && decode(z) == Parsed(JNumber(0.0))
    ensures RunOutcome(Response(200, "OK", DataPrefix + q + "\n" + DataPrefix + z + "\n"), decode)
         == Success(Envelope(true, 200, Some(Queued), None))
  {
    assert DataPrefix + q + "\n" + DataPrefix + z + "\n" == (DataPrefix + q) + "\n" + (DataPrefix + z) + "\n";
    SplitTwoLines(DataPrefix + q, DataPrefix + z);
    DataLinePayload(q);
    DataLinePayload(z);
    ScanThree(DataPrefix + q, DataPrefix + z, "", decode);
  }
}
