/**
 * The signed push-update handler of mlabns.handlers.update.
 *
 * A sliver tool (one running instance of a measurement tool) reports its
 * own status, addresses and URL, signed with its key. `Post` parses the
 * report, finds the SliverTool record under the composite id, checks the
 * signature and the replay guard, then overwrites the reported fields and
 * writes the record back. Every rejection answers "not found" and leaves the
 * store as it was.
 *
 * Three collaborators are not part of this model and are parameters of
 * `Post`: the parser of the submitted arguments and the signature of
 * mlabns.util.update_message, and the composite-id derivation of
 * mlabns.db.model. The clock is the parameter `now`, and the outcome of the
 * datastore write is the parameter `putFails`.
 */
module UpdateHandler {
  import opened Wrappers

  type SliverToolId = string

  /** The submitted arguments, by name. */
  type Request = map<string, string>

  /** The name of the argument that carries the signature. */
  const SIGNATURE: string := "signature"

  /** The part of a SliverTool record that the push-update path reads or writes. */
  datatype SliverTool = SliverTool(
    toolId: string,
    sliceId: string,
    serverId: string,
    siteId: string,
    fqdn: string,
    sliverToolKey: string,
    status: string,
    sliverIpv4: string,
    sliverIpv6: string,
    url: string,
    updateRequestTimestamp: int)

  /** A parsed update; an absent address is the empty string. */
  datatype UpdateMessage = UpdateMessage(
    toolId: string,
    sliceId: string,
    serverId: string,
    siteId: string,
    status: string,
    sliverIpv4: string,
    sliverIpv6: string,
    url: string,
    timestamp: int)

  /** The two answers the handler sends. */
  datatype Response = NotFound | Success

  /** Why an update was refused; the caller sees NotFound for all of them. */
  datatype Rejection = FormatError | UnknownSliverTool | BadSignature | StaleTimestamp

  /** The outcome of the checks that precede the write. */
  datatype Verdict = Rejected(reason: Rejection) | Accepted(id: SliverToolId, update: UpdateMessage)

  /** `request.get(name)`: the argument's value, or "" when it was not sent. */
  function RequestGet(request: Request, name: string): string {
    if name in request then request[name] else ""
  }

  /** The composite id an update names. */
  function TargetId(update: UpdateMessage, sliverToolId: (string, string, string, string) -> SliverToolId): SliverToolId {
    sliverToolId(update.toolId, update.sliceId, update.serverId, update.siteId)
  }

  // ---------------------------------------------------------------------
  // The specification of Post

  /** The checks of the handler, in their order. */
  function Validate(
    rows: map<SliverToolId, SliverTool>,
    request: Request,
    parse: Request -> Option<UpdateMessage>,
    computeSignature: (UpdateMessage, string) -> string,
    sliverToolId: (string, string, string, string) -> SliverToolId): (v: Verdict)
    ensures v.Accepted? ==> parse(request) == Some(v.update) && v.id == TargetId(v.update, sliverToolId) && v.id in rows
  {
    match parse(request)
    case None => Rejected(FormatError)
    case Some(update) =>
      var id := TargetId(update, sliverToolId);
      if id !in rows then Rejected(UnknownSliverTool)
      else if computeSignature(update, rows[id].sliverToolKey) != RequestGet(request, SIGNATURE) then Rejected(BadSignature)
      else if update.timestamp <= rows[id].updateRequestTimestamp then Rejected(StaleTimestamp)
      else Accepted(id, update)
  }

  /** The record after an accepted update at server time `now`. */
  function Applied(tool: SliverTool, update: UpdateMessage, now: int): (r: SliverTool)
    ensures SameIdentity(tool, r)
    ensures tool.sliverIpv4 != "" ==> r.sliverIpv4 != ""
    ensures tool.sliverIpv6 != "" ==> r.sliverIpv6 != ""
    ensures r.status == update.status && r.url == update.url && r.updateRequestTimestamp == now
  {
    tool.(
      status := update.status,
      sliverIpv4 := if update.sliverIpv4 != "" then update.sliverIpv4 else tool.sliverIpv4,
      sliverIpv6 := if update.sliverIpv6 != "" then update.sliverIpv6 else tool.sliverIpv6,
      url := update.url,
      updateRequestTimestamp := now)
  }

  /** The response and the new rows of one call of Post. */
  function PostSpec(
    rows: map<SliverToolId, SliverTool>,
    request: Request,
    parse: Request -> Option<UpdateMessage>,
    computeSignature: (UpdateMessage, string) -> string,
    sliverToolId: (string, string, string, string) -> SliverToolId,
    now: int,
    putFails: bool): (r: (Response, map<SliverToolId, SliverTool>))
    ensures r.0 == Success <==> Validate(rows, request, parse, computeSignature, sliverToolId).Accepted?
    ensures r.0 == NotFound ==> r.1 == rows
    ensures r.1.Keys == rows.Keys
    ensures forall id :: id in rows ==> SameIdentity(rows[id], r.1[id])
  {
    match Validate(rows, request, parse, computeSignature, sliverToolId)
    case Rejected(_) => (NotFound, rows)
    case Accepted(id, update) =>
      if putFails then (Success, rows)
      else (Success, rows[id := Applied(rows[id], update, now)])
  }

  // ---------------------------------------------------------------------
  // The store and the handler

  /** The SliverTool table of the datastore, by key name. */
  class SliverToolTable {
    var rows: map<SliverToolId, SliverTool>

    constructor (initial: map<SliverToolId, SliverTool>)
      ensures rows == initial
    {
      rows := initial;
    }

    /** `SliverTool.get_by_key_name(id)`: a copy of the record, or None. */
    method GetByKeyName(id: SliverToolId) returns (found: Option<SliverTool>)
      ensures found.Some? <==> id in rows
      ensures found.Some? ==> found.value == rows[id]
    {
      if id in rows {
        found := Some(rows[id]);
      } else {
        found := None;
      }
    }

    /** `put()`: stores the record under `id`, unless the write fails. */
    method Put(id: SliverToolId, tool: SliverTool, fails: bool)
      modifies this
      ensures rows == if fails then old(rows) else old(rows)[id := tool]
    {
      if !fails {
        rows := rows[id := tool];
      }
    }
  }

  /** GET is not implemented: it always answers "not found". */
  method Get(table: SliverToolTable) returns (response: Response)
    ensures response == NotFound
  {
    response := NotFound;
  }

  /** POST: validate a signed update and apply it to its SliverTool record. */
  method Post(
    table: SliverToolTable,
    request: Request,
    parse: Request -> Option<UpdateMessage>,
    computeSignature: (UpdateMessage, string) -> string,
    sliverToolId: (string, string, string, string) -> SliverToolId,
    now: int,
    putFails: bool) returns (response: Response)
    modifies table
    ensures (response, table.rows) == PostSpec(old(table.rows), request, parse, computeSignature, sliverToolId, now, putFails)
    ensures response == NotFound ==> table.rows == old(table.rows)
    ensures table.rows.Keys == old(table.rows.Keys)
  {
    var parsed := parse(request);
    if parsed.None? {
      return NotFound;
    }
    var update := parsed.value;

    var id := sliverToolId(update.toolId, update.sliceId, update.serverId, update.siteId);
    var found := table.GetByKeyName(id);
    if found.None? {
      return NotFound;
    }
    var tool := found.value;

    var signature := computeSignature(update, tool.sliverToolKey);
    if signature != RequestGet(request, SIGNATURE) {
      return NotFound;
    }

    // Prevent replay attacks.
    if update.timestamp <= tool.updateRequestTimestamp {
      return NotFound;
    }

    tool := tool.(status := update.status);
    if update.sliverIpv4 != "" {
      tool := tool.(sliverIpv4 := update.sliverIpv4);
    }
    if update.sliverIpv6 != "" {
      tool := tool.(sliverIpv6 := update.sliverIpv6);
    }
    tool := tool.(url := update.url);
    tool := tool.(updateRequestTimestamp := now);

    table.Put(id, tool, putFails);
    return Success;
  }

  // ---------------------------------------------------------------------
  // Properties of one update

  /** Every rejection answers "not found" and leaves the rows as they were. */
  lemma RejectionChangesNothing(
    rows: map<SliverToolId, SliverTool>, request: Request,
    parse: Request -> Option<UpdateMessage>, computeSignature: (UpdateMessage, string) -> string,
    sliverToolId: (string, string, string, string) -> SliverToolId, now: int, putFails: bool)
    requires Validate(rows, request, parse, computeSignature, sliverToolId).Rejected?
    ensures PostSpec(rows, request, parse, computeSignature, sliverToolId, now, putFails) == (NotFound, rows)
  {
  }

  /** Arguments that do not parse are rejected. */
  lemma FormatErrorRejected(
    rows: map<SliverToolId, SliverTool>, request: Request,
    parse: Request -> Option<UpdateMessage>, computeSignature: (UpdateMessage, string) -> string,
    sliverToolId: (string, string, string, string) -> SliverToolId)
    requires parse(request).None?
    ensures Validate(rows, request, parse, computeSignature, sliverToolId) == Rejected(FormatError)
  {
  }

  /** An update for an unknown composite id is rejected and creates no record. */
  lemma UnknownSliverToolRejected(
    rows: map<SliverToolId, SliverTool>, request: Request,
    parse: Request -> Option<UpdateMessage>, computeSignature: (UpdateMessage, string) -> string,
    sliverToolId: (string, string, string, string) -> SliverToolId, now: int, putFails: bool)
    requires parse(request).Some? && TargetId(parse(request).value, sliverToolId) !in rows
    ensures Validate(rows, request, parse, computeSignature, sliverToolId) == Rejected(UnknownSliverTool)
    ensures TargetId(parse(request).value, sliverToolId)
        !in PostSpec(rows, request, parse, computeSignature, sliverToolId, now, putFails).1
  {
  }

  /** An update whose signature over the stored key differs from the submitted one is rejected. */
  lemma BadSignatureRejected(
    rows: map<SliverToolId, SliverTool>, request: Request,
    parse: Request -> Option<UpdateMessage>, computeSignature: (UpdateMessage, string) -> string,
    sliverToolId: (string, string, string, string) -> SliverToolId)
    requires parse(request).Some?
    requires var id := TargetId(parse(request).value, sliverToolId);
      id in rows && computeSignature(parse(request).value, rows[id].sliverToolKey) != RequestGet(request, SIGNATURE)
    ensures Validate(rows, request, parse, computeSignature, sliverToolId) == Rejected(BadSignature)
  {
  }

  /**
   * A request that carries no signature argument is checked against the
   * empty string, so it is rejected whenever the recomputed signature is
   * not empty.
   */
  lemma MissingSignatureRejected(
    rows: map<SliverToolId, SliverTool>, request: Request,
    parse: Request -> Option<UpdateMessage>, computeSignature: (UpdateMessage, string) -> string,
    sliverToolId: (string, string, string, string) -> SliverToolId, now: int, putFails: bool)
    requires SIGNATURE !in request
    requires parse(request).Some?
    requires var id := TargetId(parse(request).value, sliverToolId);
      id in rows && computeSignature(parse(request).value, rows[id].sliverToolKey) != ""
    ensures PostSpec(rows, request, parse, computeSignature, sliverToolId, now, putFails) == (NotFound, rows)
    ensures Validate(rows, request, parse, computeSignature, sliverToolId) == Rejected(BadSignature)
  {
  }

  /** Replay guard: a correctly signed update no newer than the stored timestamp is rejected. */
  lemma StaleTimestampRejected(
    rows: map<SliverToolId, SliverTool>, request: Request,
    parse: Request -> Option<UpdateMessage>, computeSignature: (UpdateMessage, string) -> string,
    sliverToolId: (string, string, string, string) -> SliverToolId)
    requires parse(request).Some?
    requires var id := TargetId(parse(request).value, sliverToolId);
      && id in rows
      && computeSignature(parse(request).value, rows[id].sliverToolKey) == RequestGet(request, SIGNATURE)
      && parse(request).value.timestamp <= rows[id].updateRequestTimestamp
    ensures Validate(rows, request, parse, computeSignature, sliverToolId) == Rejected(StaleTimestamp)
  {
  }

  /** An update is accepted exactly when it parses, names a stored record, is signed with its key and is newer. */
  lemma AcceptedIff(
    rows: map<SliverToolId, SliverTool>, request: Request,
    parse: Request -> Option<UpdateMessage>, computeSignature: (UpdateMessage, string) -> string,
    sliverToolId: (string, string, string, string) -> SliverToolId, now: int, putFails: bool)
    ensures PostSpec(rows, request, parse, computeSignature, sliverToolId, now, putFails).0 == Success
      <==> && parse(request).Some?
           && var update := parse(request).value;
              var id := TargetId(update, sliverToolId);
              && id in rows
              && computeSignature(update, rows[id].sliverToolKey) == RequestGet(request, SIGNATURE)
              && update.timestamp > rows[id].updateRequestTimestamp
  {
  }

  /**
   * An accepted update that is written overwrites status and url, overwrites
   * each address only when the submitted one is non-empty, sets the
   * timestamp to the server time, and changes nothing else.
   */
  lemma AcceptedUpdateFields(
    rows: map<SliverToolId, SliverTool>, request: Request,
    parse: Request -> Option<UpdateMessage>, computeSignature: (UpdateMessage, string) -> string,
    sliverToolId: (string, string, string, string) -> SliverToolId, now: int)
    requires Validate(rows, request, parse, computeSignature, sliverToolId).Accepted?
    ensures var Accepted(id, update) := Validate(rows, request, parse, computeSignature, sliverToolId);
      var rows' := PostSpec(rows, request, parse, computeSignature, sliverToolId, now, false).1;
      && rows'.Keys == rows.Keys
      && (forall other :: other in rows && other != id ==> rows'[other] == rows[other])
      && rows'[id].status == update.status
      && rows'[id].url == update.url
      && rows'[id].sliverIpv4 == (if update.sliverIpv4 != "" then update.sliverIpv4 else rows[id].sliverIpv4)
      && rows'[id].sliverIpv6 == (if update.sliverIpv6 != "" then update.sliverIpv6 else rows[id].sliverIpv6)
      && rows'[id].updateRequestTimestamp == now
      && rows'[id].(status := rows[id].status, url := rows[id].url, sliverIpv4 := rows[id].sliverIpv4,
                    sliverIpv6 := rows[id].sliverIpv6, updateRequestTimestamp := rows[id].updateRequestTimestamp)
         == rows[id]
  {
  }

  /** A failed datastore write changes nothing, yet the answer is the same as when it succeeds. */
  lemma SuccessDespiteFailedWrite(
    rows: map<SliverToolId, SliverTool>, request: Request,
    parse: Request -> Option<UpdateMessage>, computeSignature: (UpdateMessage, string) -> string,
    sliverToolId: (string, string, string, string) -> SliverToolId, now: int)
    ensures PostSpec(rows, request, parse, computeSignature, sliverToolId, now, true).0
         == PostSpec(rows, request, parse, computeSignature, sliverToolId, now, false).0
    ensures PostSpec(rows, request, parse, computeSignature, sliverToolId, now, true).1 == rows
  {
  }

  /** The stored timestamp 1000 rejects an otherwise valid update stamped 1000 or 999. */
  lemma ReplayGuardExample(submitted: int)
    requires submitted == 1000 || submitted == 999
    ensures
      var stored := SliverTool("ndt", "iupui_ndt", "mlab1", "nuq01", "ndt.iupui.mlab1.nuq01.measurement-lab.org",
                               "key", "online", "192.0.2.1", "", "", 1000);
      var rows := map["id" := stored];
      var update := UpdateMessage("ndt", "iupui_ndt", "mlab1", "nuq01", "offline", "", "", "", submitted);
      PostSpec(rows, map[SIGNATURE := "sig"], _ => Some(update), (_, _) => "sig", (_, _, _, _) => "id", 2000, false)
        == (NotFound, rows)
  {
  }

  /**
   * Resending a request after it was accepted and written at server time
   * `now` is accepted again exactly when its own timestamp exceeds `now`:
   * the replay guard compares client timestamps with the server's clock.
   */
  lemma ReplayAfterAcceptance(
    rows: map<SliverToolId, SliverTool>, request: Request,
    parse: Request -> Option<UpdateMessage>, computeSignature: (UpdateMessage, string) -> string,
    sliverToolId: (string, string, string, string) -> SliverToolId, now: int, later: int, putFails: bool)
    requires Validate(rows, request, parse, computeSignature, sliverToolId).Accepted?
    ensures var rows' := PostSpec(rows, request, parse, computeSignature, sliverToolId, now, false).1;
      var again := PostSpec(rows', request, parse, computeSignature, sliverToolId, later, putFails);
      again.0 == Success <==> parse(request).value.timestamp > now
  {
  }

  // ---------------------------------------------------------------------
  // Properties of a sequence of updates

  /** One POST: its arguments, the server time and whether its write fails. */
  datatype Call = Call(request: Request, now: int, putFails: bool)

  /** The rows after a sequence of POSTs. */
  function Run(
    rows: map<SliverToolId, SliverTool>, calls: seq<Call>,
    parse: Request -> Option<UpdateMessage>, computeSignature: (UpdateMessage, string) -> string,
    sliverToolId: (string, string, string, string) -> SliverToolId): map<SliverToolId, SliverTool>
    decreases |calls|
  {
    if calls == [] then rows
    else
      var rows' := PostSpec(rows, calls[0].request, parse, computeSignature, sliverToolId, calls[0].now, calls[0].putFails).1;
      Run(rows', calls[1..], parse, computeSignature, sliverToolId)
  }

  /** The fields a push-update never writes: the identity and the signing key. */
  ghost predicate SameIdentity(a: SliverTool, b: SliverTool) {
    && a.toolId == b.toolId && a.sliceId == b.sliceId && a.serverId == b.serverId && a.siteId == b.siteId
    && a.fqdn == b.fqdn && a.sliverToolKey == b.sliverToolKey
  }

  /**
   * Push-updates never create or delete a record and never change a
   * record's identity or signing key, however many are applied.
   */
  lemma {:induction false} RunKeepsRecordsAndKeys(
    rows: map<SliverToolId, SliverTool>, calls: seq<Call>,
    parse: Request -> Option<UpdateMessage>, computeSignature: (UpdateMessage, string) -> string,
    sliverToolId: (string, string, string, string) -> SliverToolId)
    ensures var rows' := Run(rows, calls, parse, computeSignature, sliverToolId);
      && rows'.Keys == rows.Keys
      && forall id :: id in rows ==> SameIdentity(rows[id], rows'[id])
    decreases |calls|
  {
    if calls != [] {
      var rows1 := PostSpec(rows, calls[0].request, parse, computeSignature, sliverToolId, calls[0].now, calls[0].putFails).1;
      RunKeepsRecordsAndKeys(rows1, calls[1..], parse, computeSignature, sliverToolId);
    }
  }

  /** Every stored timestamp is at most `now`. */
  ghost predicate ClockAhead(rows: map<SliverToolId, SliverTool>, now: int) {
    forall id :: id in rows ==> rows[id].updateRequestTimestamp <= now
  }

  /** The server times of the calls never go backward. */
  ghost predicate ClockMonotone(calls: seq<Call>) {
    forall i, j :: 0 <= i < j < |calls| ==> calls[i].now <= calls[j].now
  }

  /**
   * When the server clock never runs behind a stored timestamp and never goes
   * backward, no sequence of push-updates moves a stored timestamp backward.
   */
  lemma {:induction false} RunTimestampsNeverDecrease(
    rows: map<SliverToolId, SliverTool>, calls: seq<Call>,
    parse: Request -> Option<UpdateMessage>, computeSignature: (UpdateMessage, string) -> string,
    sliverToolId: (string, string, string, string) -> SliverToolId)
    requires calls != [] ==> ClockAhead(rows, calls[0].now)
    requires ClockMonotone(calls)
    ensures var rows' := Run(rows, calls, parse, computeSignature, sliverToolId);
      forall id :: id in rows && id in rows' ==> rows[id].updateRequestTimestamp <= rows'[id].updateRequestTimestamp
    decreases |calls|
  {
    if calls != [] {
      var rows1 := PostSpec(rows, calls[0].request, parse, computeSignature, sliverToolId, calls[0].now, calls[0].putFails).1;
      assert ClockAhead(rows1, calls[0].now);
      if |calls| > 1 {
        assert calls[0].now <= calls[1].now;
      }
      assert ClockMonotone(calls[1..]) by {
        forall i, j | 0 <= i < j < |calls[1..]| ensures calls[1..][i].now <= calls[1..][j].now {
          assert calls[1..][i] == calls[i + 1] && calls[1..][j] == calls[j + 1];
        }
      }
      RunTimestampsNeverDecrease(rows1, calls[1..], parse, computeSignature, sliverToolId);
    }
  }

  /** With the server clock behind the stored timestamp, an accepted update moves it backward. */
  lemma TimestampCanMoveBackward()
    ensures
      var stored := SliverTool("ndt", "iupui_ndt", "mlab1", "nuq01", "ndt.iupui.mlab1.nuq01.measurement-lab.org",
                               "key", "online", "192.0.2.1", "", "", 1000);
      var rows := map["id" := stored];
      var update := UpdateMessage("ndt", "iupui_ndt", "mlab1", "nuq01", "online", "", "", "", 1001);
      var (response, rows') := PostSpec(rows, map[SIGNATURE := "sig"], _ => Some(update), (_, _) => "sig", (_, _, _, _) => "id", 500, false);
      response == Success && rows'["id"].updateRequestTimestamp == 500 < stored.updateRequestTimestamp
  {
  }
}
