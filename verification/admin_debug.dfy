/** The guards and bookkeeping of the debug admin commands: the fenced-code-block check on a
    command body and the payload it yields, the refusals of the federation commands, the outlier
    flag of `get-pdu`, the success/failure tally of `get-remote-pdu-list`, and the state map that
    `force-set-room-state-from-server` hands to state resolution. Federation requests, JSON
    parsing, signing and the database are parameters. */
module AdminDebug {
  import opened Wrappers
  import opened Core
  import opened Text
  import opened Seqs

  const CODE_FENCE := "```"
  const EXPECTED_CODE_BLOCK := "Expected code block in command body. Add --help for details."
  const FEDERATION_DISABLED := "Federation is disabled on this homeserver."
  const NOT_TO_OURSELVES := "Not allowed to send federation requests to ourselves."
  const NOT_TO_OURSELVES_PDU := "Not allowed to send federation requests to ourselves. Please use `get-pdu` for fetching local PDUs."
  const NOT_TO_OURSELVES_PDU_LIST :=
    "Not allowed to send federation requests to ourselves. Please use `get-pdu` for fetching local PDUs from the database."
  const PDU_FOUND := "PDU found in our database"
  const OUTLIER_PDU_FOUND := "Outlier PDU found in our database"
  const PDU_NOT_FOUND := "PDU not found locally."
  const NOT_IN_ROOM := "We are not participating in the room / we don't know about the room ID."
  const NO_LATEST_PDU := "Failed to find the latest PDU in database"
  const INVALID_STATE_PDU := "Invalid PDU in send_join response: "

  // ---------------------------------------------------------------- the code-block guard

  /** The body guard shared by `parse-pdu`, `get-remote-pdu-list`, `sign-json` and `verify-json`:
      at least two lines, the first (trimmed) opening a fence and the last (trimmed) closing it. */
  predicate IsCodeBlock(body: seq<string>)
  {
    |body| >= 2 && StartsWith(Trim(body[0]), CODE_FENCE) && Trim(body[|body| - 1]) == CODE_FENCE
  }

  /** The lines strictly between the fences, or the reply that the body is not a code block. */
  function CodeBlockLines(body: seq<string>): (r: Result<seq<string>, string>)
    ensures r.Err? <==> !IsCodeBlock(body)
    ensures r.Err? ==> r.error == EXPECTED_CODE_BLOCK
    ensures r.Ok? ==> |r.value| == |body| - 2 && forall i :: 0 <= i < |r.value| ==> r.value[i] == body[i + 1]
  {
    if IsCodeBlock(body) then Ok(body[1..|body| - 1]) else Err(EXPECTED_CODE_BLOCK)
  }

  /** The payload the JSON commands parse: the lines between the fences joined with newlines. */
  function CodeBlockPayload(body: seq<string>): (r: Result<string, string>)
    ensures r.Err? <==> !IsCodeBlock(body)
    ensures r.Err? ==> r.error == EXPECTED_CODE_BLOCK
  {
    match CodeBlockLines(body)
    case Err(e) => Err(e)
    case Ok(lines) => Ok(Join(lines, '\n'))
  }

  /** A body an operator types: an opening fence with an optional language tag, the payload
      lines, and a closing fence. */
  function Fenced(language: string, lines: seq<string>): (body: seq<string>)
    ensures |body| == |lines| + 2
  {
    [CODE_FENCE + language] + lines + [CODE_FENCE]
  }

  /** Trimming never reaches into a non-whitespace prefix of a line. */
  lemma TrimKeepsFence(s: string)
    requires StartsWith(s, CODE_FENCE)
    ensures StartsWith(Trim(s), CODE_FENCE)
  {
    assert !IsWhitespace(s[0]) && !IsWhitespace(s[1]) && !IsWhitespace(s[2]);
    var r := Trim(s);
    assert r[..3] == s[..3];
  }

  /** A fenced body passes the guard, and its payload is its lines joined with newlines. */
  lemma {:induction false} FencedPasses(language: string, lines: seq<string>)
    ensures IsCodeBlock(Fenced(language, lines))
    ensures CodeBlockLines(Fenced(language, lines)) == Ok(lines)
    ensures CodeBlockPayload(Fenced(language, lines)) == Ok(Join(lines, '\n'))
  {
    var body := Fenced(language, lines);
    assert StartsWith(CODE_FENCE + language, CODE_FENCE) by {
      assert (CODE_FENCE + language)[..3] == CODE_FENCE;
    }
    TrimKeepsFence(CODE_FENCE + language);
    TrimKeepsFence(CODE_FENCE);
    assert body[0] == CODE_FENCE + language;
    assert body[|body| - 1] == CODE_FENCE;
    assert Trim(CODE_FENCE) == CODE_FENCE by {
      var r := Trim(CODE_FENCE);
      assert |r| <= 3;
    }
    assert body[1..|body| - 1] == lines;
  }

  /** Splitting the payload of a fenced body at newlines gives back the lines typed, when there
      is at least one and none holds a newline (as for the lines of a message body). */
  lemma PayloadSplitsIntoLines(language: string, lines: seq<string>)
    requires |lines| >= 1
    requires forall i :: 0 <= i < |lines| ==> '\n' !in lines[i]
    ensures CodeBlockPayload(Fenced(language, lines)).Ok?
    ensures SplitAll(CodeBlockPayload(Fenced(language, lines)).value, '\n') == lines
  {
    FencedPasses(language, lines);
    SplitAllOfJoin(lines, '\n');
  }

  /** Conversely, a body that passes the guard has as payload the lines strictly between its
      fences joined with newlines: the empty string for a body of just the two fences, and
      otherwise a payload whose lines, between the opening and closing line, give back the body. */
  lemma GuardedBodyShape(body: seq<string>)
    requires IsCodeBlock(body)
    requires forall i :: 0 <= i < |body| ==> '\n' !in body[i]
    ensures CodeBlockPayload(body) == Ok(Join(body[1..|body| - 1], '\n'))
    ensures |body| == 2 ==> CodeBlockPayload(body) == Ok([])
    ensures |body| >= 3 ==> body == [body[0]] + SplitAll(CodeBlockPayload(body).value, '\n') + [body[|body| - 1]]
  {
    var lines := body[1..|body| - 1];
    if |body| == 2 {
      assert lines == [];
    }
    if |body| >= 3 {
      assert forall i :: 0 <= i < |lines| ==> '\n' !in lines[i] by {
        forall i | 0 <= i < |lines| ensures '\n' !in lines[i] {
          assert lines[i] == body[i + 1];
        }
      }
      SplitAllOfJoin(lines, '\n');
      assert body == [body[0]] + lines + [body[|body| - 1]];
    }
  }

  // ---------------------------------------------------------------- refusals

  /** `ping` refuses to target this server. */
  function PingRefusal(ownServer: ServerName, server: ServerName): (r: Option<string>)
    ensures r.Some? <==> server == ownServer
    ensures r.Some? ==> r.value == NOT_TO_OURSELVES
  {
    if server == ownServer then Some(NOT_TO_OURSELVES) else None
  }

  /** `get-remote-pdu` refuses when federation is off, then when the target is this server. */
  function RemotePduRefusal(allowFederation: bool, ownServer: ServerName, server: ServerName): (r: Option<string>)
    ensures r.Some? <==> !allowFederation || server == ownServer
    ensures !allowFederation ==> r == Some(FEDERATION_DISABLED)
    ensures allowFederation && server == ownServer ==> r == Some(NOT_TO_OURSELVES_PDU)
  {
    if !allowFederation then Some(FEDERATION_DISABLED)
    else if server == ownServer then Some(NOT_TO_OURSELVES_PDU)
    else None
  }

  /** `get-remote-pdu-list` refuses in the same order, with its own wording for this server,
      and only then looks at the body. */
  function RemotePduListRefusal(allowFederation: bool, ownServer: ServerName, server: ServerName, body: seq<string>)
    : (r: Option<string>)
    ensures r.Some? <==> RemotePduRefusal(allowFederation, ownServer, server).Some? || !IsCodeBlock(body)
    ensures !allowFederation ==> r == Some(FEDERATION_DISABLED)
    ensures allowFederation && server == ownServer ==> r == Some(NOT_TO_OURSELVES_PDU_LIST)
    ensures allowFederation && server != ownServer && !IsCodeBlock(body) ==> r == Some(EXPECTED_CODE_BLOCK)
  {
    if !allowFederation then Some(FEDERATION_DISABLED)
    else if server == ownServer then Some(NOT_TO_OURSELVES_PDU_LIST)
    else match CodeBlockLines(body)
      case Err(e) => Some(e)
      case Ok(_) => None
  }

  // ---------------------------------------------------------------- get-pdu

  /** What `get-pdu` reports. */
  datatype PduReport = Found(outlier: bool, json: Json) | NotFound

  /** `get-pdu`: the timeline's non-outlier lookup first; only when it misses, the lookup that
      also sees outliers, whose hit is then reported as an outlier. */
  function GetPdu(nonOutlierLookup: EventId -> Option<Json>, anyLookup: EventId -> Option<Json>, eventId: EventId)
    : (r: PduReport)
    ensures r.Found? && !r.outlier <==> nonOutlierLookup(eventId).Some?
    ensures r.Found? && !r.outlier ==> r.json == nonOutlierLookup(eventId).value
    ensures r.Found? && r.outlier <==> nonOutlierLookup(eventId).None? && anyLookup(eventId).Some?
    ensures r.Found? && r.outlier ==> r.json == anyLookup(eventId).value
    ensures r.NotFound? <==> nonOutlierLookup(eventId).None? && anyLookup(eventId).None?
  {
    match nonOutlierLookup(eventId)
    case Some(json) => Found(false, json)
    case None =>
      match anyLookup(eventId)
      case Some(json) => Found(true, json)
      case None => NotFound
  }

  /** The first line of a found PDU's reply. */
  function PduHeading(outlier: bool): (heading: string)
    ensures heading == OUTLIER_PDU_FOUND <==> outlier
  {
    if outlier then OUTLIER_PDU_FOUND else PDU_FOUND
  }

  /** A PDU store: a map of every PDU the server holds, and which of them are outliers. */
  datatype PduStore = PduStore(pdus: map<EventId, Json>, outliers: set<EventId>)

  function NonOutlierLookup(store: PduStore): EventId -> Option<Json>
  {
    id => if id in store.pdus && id !in store.outliers then Some(store.pdus[id]) else None
  }

  function AnyLookup(store: PduStore): EventId -> Option<Json>
  {
    id => if id in store.pdus then Some(store.pdus[id]) else None
  }

  /** Against a store, `get-pdu` finds exactly the stored PDUs, with the stored JSON, and flags
      exactly the outliers. */
  lemma GetPduAgainstStore(store: PduStore, eventId: EventId)
    ensures GetPdu(NonOutlierLookup(store), AnyLookup(store), eventId).Found? <==> eventId in store.pdus
    ensures eventId in store.pdus ==>
      GetPdu(NonOutlierLookup(store), AnyLookup(store), eventId) == Found(eventId in store.outliers, store.pdus[eventId])
  {
  }

  // ---------------------------------------------------------------- get-remote-pdu-list

  /** The event ids among `lines`, in order; lines that do not parse are dropped. */
  function ParsedIds(lines: seq<string>, parseEventId: string -> Option<EventId>): (ids: seq<EventId>)
    ensures |ids| <= |lines|
  {
    if |lines| == 0 then []
    else
      var rest := ParsedIds(lines[1..], parseEventId);
      match parseEventId(lines[0])
      case Some(id) => [id] + rest
      case None => rest
  }

  /** Every parsed id comes from a line, and every line that parses contributes its id. */
  lemma {:induction false} ParsedIdsSpec(lines: seq<string>, parseEventId: string -> Option<EventId>)
    ensures forall id :: id in ParsedIds(lines, parseEventId) <==>
      exists i :: 0 <= i < |lines| && parseEventId(lines[i]) == Some(id)
    ensures (forall i :: 0 <= i < |lines| ==> parseEventId(lines[i]).Some?) ==> |ParsedIds(lines, parseEventId)| == |lines|
  {
    if |lines| > 0 {
      ParsedIdsSpec(lines[1..], parseEventId);
      var rest := lines[1..];
      forall id ensures id in ParsedIds(lines, parseEventId) <==> exists i :: 0 <= i < |lines| && parseEventId(lines[i]) == Some(id) {
        if id in ParsedIds(lines, parseEventId) {
          if parseEventId(lines[0]) == Some(id) {
          } else {
            var j :| 0 <= j < |rest| && parseEventId(rest[j]) == Some(id);
            assert lines[j + 1] == rest[j];
          }
        } else {
          forall i | 0 <= i < |lines| ensures parseEventId(lines[i]) != Some(id) {
            if i > 0 {
              assert lines[i] == rest[i - 1];
            }
          }
        }
      }
      if forall i :: 0 <= i < |lines| ==> parseEventId(lines[i]).Some? {
        assert forall i :: 0 <= i < |rest| ==> parseEventId(rest[i]).Some? by {
          forall i | 0 <= i < |rest| ensures parseEventId(rest[i]).Some? {
            assert rest[i] == lines[i + 1];
          }
        }
      }
    }
  }

  /** `filter_map` works line by line and keeps order and repeats: the ids of `a + b` are those
      of `a` followed by those of `b`, and a single line gives its id iff it parses. */
  lemma {:induction false} ParsedIdsConcat(a: seq<string>, b: seq<string>, parseEventId: string -> Option<EventId>)
    ensures ParsedIds(a + b, parseEventId) == ParsedIds(a, parseEventId) + ParsedIds(b, parseEventId)
    decreases |a|
  {
    if |a| == 0 {
      assert a + b == b;
    } else {
      assert (a + b)[0] == a[0];
      assert (a + b)[1..] == a[1..] + b;
      ParsedIdsConcat(a[1..], b, parseEventId);
    }
  }

  lemma ParsedIdsOne(line: string, parseEventId: string -> Option<EventId>)
    ensures ParsedIds([line], parseEventId) == if parseEventId(line).Some? then [parseEventId(line).value] else []
  {
    assert [line][1..] == [];
  }

  /** The number of ids whose fetch succeeds. */
  function Successes(ids: seq<EventId>, fetch: EventId -> Result<(), Error>): (n: nat)
    ensures n <= |ids|
  {
    if |ids| == 0 then 0
    else (if fetch(ids[0]).Ok? then 1 else 0) + Successes(ids[1..], fetch)
  }

  lemma SuccessesAppend(ids: seq<EventId>, id: EventId, fetch: EventId -> Result<(), Error>)
    ensures Successes(ids + [id], fetch) == Successes(ids, fetch) + (if fetch(id).Ok? then 1 else 0)
    decreases |ids|
  {
    if |ids| > 0 {
      assert (ids + [id])[1..] == ids[1..] + [id];
      SuccessesAppend(ids[1..], id, fetch);
    }
  }

  /** The position of the first id whose fetch fails, if any. */
  function FirstFailure(ids: seq<EventId>, fetch: EventId -> Result<(), Error>): (k: Option<nat>)
    ensures k.None? <==> forall i :: 0 <= i < |ids| ==> fetch(ids[i]).Ok?
    ensures k.Some? ==>
      && k.value < |ids|
      && fetch(ids[k.value]).Err?
      && forall i :: 0 <= i < k.value ==> fetch(ids[i]).Ok?
  {
    if |ids| == 0 then None
    else if fetch(ids[0]).Err? then Some(0)
    else match FirstFailure(ids[1..], fetch)
      case None => None
      case Some(k) => Some(k + 1)
  }

  /** How `get-remote-pdu-list` ends. */
  datatype ListOutcome =
    | Refused(message: string)
    | Aborted(error: Error)
    | Tally(successes: nat, failures: nat)

  /** What the fetch loop ends with, and which ids it fetched. */
  function FetchOutcome(ids: seq<EventId>, force: bool, fetch: EventId -> Result<(), Error>): (ListOutcome, seq<EventId>)
  {
    if force then (Tally(Successes(ids, fetch), |ids| - Successes(ids, fetch)), ids)
    else match FirstFailure(ids, fetch)
      case None => (Tally(|ids|, 0), ids)
      case Some(k) => (Aborted(fetch(ids[k]).error), ids[..k + 1])
  }

  /** The fetch loop of `get-remote-pdu-list` over the parsed ids. With `force` every id is
      attempted and failures are only counted; without it the first failure ends the loop with
      its error. `attempted` lists the ids fetched, in order. */
  method FetchAll(ids: seq<EventId>, force: bool, fetch: EventId -> Result<(), Error>)
    returns (outcome: ListOutcome, attempted: seq<EventId>)
    ensures (outcome, attempted) == FetchOutcome(ids, force, fetch)
    ensures force ==>
      && attempted == ids
      && outcome == Tally(Successes(ids, fetch), |ids| - Successes(ids, fetch))
    ensures !force && FirstFailure(ids, fetch).None? ==> attempted == ids && outcome == Tally(|ids|, 0)
    ensures !force && FirstFailure(ids, fetch).Some? ==>
      var k := FirstFailure(ids, fetch).value;
      attempted == ids[..k + 1] && outcome == Aborted(fetch(ids[k]).error)
  {
    var successes: nat := 0;
    var failures: nat := 0;
    attempted := [];
    var i := 0;
    while i < |ids|
      invariant 0 <= i <= |ids|
      invariant attempted == ids[..i]
      invariant successes == Successes(ids[..i], fetch)
      invariant successes + failures == i
      invariant !force ==> successes == i && forall j :: 0 <= j < i ==> fetch(ids[j]).Ok?
    {
      var result := fetch(ids[i]);
      attempted := attempted + [ids[i]];
      assert ids[..i + 1] == ids[..i] + [ids[i]];
      SuccessesAppend(ids[..i], ids[i], fetch);
      if result.Ok? {
        successes := successes + 1;
      } else if force {
        failures := failures + 1;
      } else {
        FirstFailureAt(ids, fetch, i);
        return Aborted(result.error), attempted;
      }
      i := i + 1;
    }
    assert ids[..|ids|] == ids;
    outcome := Tally(successes, failures);
  }

  /** `get-remote-pdu-list`: after the refusals, the lines between the fences that parse as
      event ids are fetched from `server` in order, as `FetchAll` describes. */
  method GetRemotePduList(allowFederation: bool, ownServer: ServerName, server: ServerName, force: bool,
                          body: seq<string>, parseEventId: string -> Option<EventId>,
                          fetch: EventId -> Result<(), Error>)
    returns (outcome: ListOutcome, attempted: seq<EventId>)
    ensures outcome.Refused? <==> RemotePduListRefusal(allowFederation, ownServer, server, body).Some?
    ensures outcome.Refused? ==>
      && outcome.message == RemotePduListRefusal(allowFederation, ownServer, server, body).value
      && attempted == []
    ensures !outcome.Refused? ==>
      && CodeBlockLines(body).Ok?
      && (outcome, attempted) == FetchOutcome(ParsedIds(CodeBlockLines(body).value, parseEventId), force, fetch)
  {
    var refusal := RemotePduListRefusal(allowFederation, ownServer, server, body);
    if refusal.Some? {
      outcome, attempted := Refused(refusal.value), [];
    } else {
      var ids := ParsedIds(CodeBlockLines(body).value, parseEventId);
      outcome, attempted := FetchAll(ids, force, fetch);
    }
  }

  /** The first failure is at `i` when `i` fails and everything before it succeeds. */
  lemma {:induction false} FirstFailureAt(ids: seq<EventId>, fetch: EventId -> Result<(), Error>, i: nat)
    requires i < |ids| && fetch(ids[i]).Err?
    requires forall j :: 0 <= j < i ==> fetch(ids[j]).Ok?
    ensures FirstFailure(ids, fetch) == Some(i)
  {
    var k := FirstFailure(ids, fetch);
    assert k.Some?;
  }

  // ---------------------------------------------------------------- force-set-room-state-from-server

  /** The parts of a remote state PDU the state map is built from. */
  datatype StatePdu = StatePdu(eventId: EventId, kind: string, stateKey: Option<string>)

  /** The calls the state assembly makes: `PduEvent::from_id_val` (an error message on failure)
      and `get_or_create_shortstatekey`. */
  datatype StateDeps = StateDeps(
    fromIdVal: (EventId, Json) -> Result<StatePdu, string>,
    shortStateKey: (string, string) -> nat)

  /** The state-map loop: `validated` holds, per PDU of the remote response, the event id and
      JSON that `validate_and_add_event_id` produced, or `None` when it failed (the PDU is then
      skipped). A PDU that fails `from_id_val` ends the command with a bad-server-response error.
      Each PDU with a state key inserts its event id under its short state key; later PDUs
      overwrite earlier ones. */
  function CollectState(acc: map<nat, EventId>, validated: seq<Option<(EventId, Json)>>, deps: StateDeps)
    : (r: Result<map<nat, EventId>, Error>)
    ensures r.Err? <==> exists i :: 0 <= i < |validated| && validated[i].Some?
                           && deps.fromIdVal(validated[i].value.0, validated[i].value.1).Err?
    ensures r.Err? ==> exists msg :: r.error == BadServerResponse(INVALID_STATE_PDU + msg)
    decreases |validated|
  {
    if |validated| == 0 then Ok(acc)
    else
      var rest := validated[1..];
      assert forall i :: 1 <= i < |validated| ==> validated[i] == rest[i - 1];
      match validated[0]
      case None => CollectState(acc, rest, deps)
      case Some((eventId, value)) =>
        match deps.fromIdVal(eventId, value)
        case Err(msg) => Err(BadServerResponse(INVALID_STATE_PDU + msg))
        case Ok(pdu) =>
          var next := if pdu.stateKey.Some? then acc[deps.shortStateKey(pdu.kind, pdu.stateKey.value) := pdu.eventId] else acc;
          CollectState(next, rest, deps)
  }

  /** The short state key a validated entry writes, with the event id it writes there. */
  function StateEntry(entry: Option<(EventId, Json)>, deps: StateDeps): Option<(nat, EventId)>
  {
    match entry
    case None => None
    case Some((eventId, value)) =>
      match deps.fromIdVal(eventId, value)
      case Err(_) => None
      case Ok(pdu) =>
        if pdu.stateKey.Some? then Some((deps.shortStateKey(pdu.kind, pdu.stateKey.value), pdu.eventId)) else None
  }

  /** The event id the last entry of `validated` that writes short key `k` writes there. */
  function LastWrite(validated: seq<Option<(EventId, Json)>>, deps: StateDeps, k: nat): Option<EventId>
    decreases |validated|
  {
    if |validated| == 0 then None
    else
      var later := LastWrite(validated[1..], deps, k);
      var here := StateEntry(validated[0], deps);
      if later.Some? then later
      else if here.Some? && here.value.0 == k then Some(here.value.1)
      else None
  }

  /** The map handed to state resolution holds, under every short state key, the event id of the
      last PDU that wrote it, and an earlier value only for keys no PDU wrote. */
  lemma {:induction false} CollectStateLastWins(acc: map<nat, EventId>, validated: seq<Option<(EventId, Json)>>, deps: StateDeps, k: nat)
    requires CollectState(acc, validated, deps).Ok?
    ensures var m := CollectState(acc, validated, deps).value;
      && (k in m <==> k in acc || LastWrite(validated, deps, k).Some?)
      && (LastWrite(validated, deps, k).Some? ==> m[k] == LastWrite(validated, deps, k).value)
      && (LastWrite(validated, deps, k).None? && k in acc ==> m[k] == acc[k])
    decreases |validated|
  {
    if |validated| > 0 {
      var rest := validated[1..];
      match validated[0]
      case None =>
        CollectStateLastWins(acc, rest, deps, k);
      case Some((eventId, value)) =>
        var pdu := deps.fromIdVal(eventId, value).value;
        var next := if pdu.stateKey.Some? then acc[deps.shortStateKey(pdu.kind, pdu.stateKey.value) := pdu.eventId] else acc;
        CollectStateLastWins(next, rest, deps, k);
    }
  }

  /** What `force-set-room-state-from-server` does up to state resolution. */
  datatype ForceStateOutcome =
    | NotParticipating
    | ForceStateFailed(error: Error)
    | ResolveState(state: map<nat, EventId>)

  /** `force-set-room-state-from-server` up to the call of state resolution: the server must be in
      the room and have a latest PDU there, and the remote state request must succeed; then the
      state map is assembled from the response's PDUs. Resolution, saving and forcing the state
      are not modelled. */
  function ForceSetRoomState(serverInRoom: bool, latestPdu: Option<EventId>,
                             response: Result<seq<Option<(EventId, Json)>>, Error>, deps: StateDeps)
    : (r: ForceStateOutcome)
    ensures r == NotParticipating <==> !serverInRoom
    ensures serverInRoom && latestPdu.None? ==> r == ForceStateFailed(BadDatabase(NO_LATEST_PDU))
    ensures serverInRoom && latestPdu.Some? && response.Err? ==> r == ForceStateFailed(response.error)
    ensures r.ResolveState? <==>
      serverInRoom && latestPdu.Some? && response.Ok? && CollectState(map[], response.value, deps).Ok?
    ensures serverInRoom && latestPdu.Some? && response.Ok? && CollectState(map[], response.value, deps).Err? ==>
      r == ForceStateFailed(CollectState(map[], response.value, deps).error)
    ensures r.ResolveState? ==> forall k :: (k in r.state <==> LastWrite(response.value, deps, k).Some?)
    ensures r.ResolveState? ==> forall k :: k in r.state ==> r.state[k] == LastWrite(response.value, deps, k).value
  {
    if !serverInRoom then NotParticipating
    else if latestPdu.None? then ForceStateFailed(BadDatabase(NO_LATEST_PDU))
    else match response
      case Err(e) => ForceStateFailed(e)
      case Ok(validated) =>
        match CollectState(map[], validated, deps)
        case Err(e) => ForceStateFailed(e)
        case Ok(state) =>
          forall k ensures (k in state <==> LastWrite(validated, deps, k).Some?)
                     && (k in state ==> state[k] == LastWrite(validated, deps, k).value) {
            CollectStateLastWins(map[], validated, deps, k);
          }
          ResolveState(state)
  }
}
