/** Reframing of the backend router's Server-Sent Events stream (the
    `text/event-stream` format of section 9.2 of the HTML Living Standard)
    before it is relayed to the caller: `_process_and_modify_json_line` and
    the per-line loop of `_stream_litellm_response_to_client`.

    JSON decoding and encoding are left abstract: `decode` stands for
    `json.loads` (None when it raises a JSONDecodeError) and `encode` for
    `json.dumps`. */
module EventStream {
  import opened JsonModel
  import Text

  const DataField := "data:"
  const DoneSentinel := "[DONE]"

  /** The canonical end-of-stream event. */
  const DoneEvent := "data: [DONE]\n\n"

  const ProxyFingerprint := "proxy_fingerprint"

  /** The payload of a `data:` line: what follows the field name, with the
      surrounding whitespace stripped. */
  function Payload(line: string): string
    requires DataField <= line
  {
    Text.Strip(line[|DataField|..])
  }

  /** The decoded object with its `system_fingerprint` overwritten. */
  function Stamp(fields: map<string, Json>): (r: map<string, Json>)
    ensures r.Keys == fields.Keys + {"system_fingerprint"}
    ensures r["system_fingerprint"] == JString(ProxyFingerprint)
    ensures forall k :: k in fields && k != "system_fingerprint" ==> r[k] == fields[k]
  {
    fields["system_fingerprint" := JString(ProxyFingerprint)]
  }

  /** `_process_and_modify_json_line` for a `data:` line. A payload that
      decodes to something other than an object makes the item assignment
      raise a TypeError, which the JSONDecodeError handler does not catch. */
  function ReframeData(line: string, decode: string -> Option<Json>, encode: Json -> string): Result<string>
    requires DataField <= line
  {
    var payload := Payload(line);
    if payload == DoneSentinel then Ok(DoneEvent)
    else match decode(payload)
      case None => Ok(line + "\n\n")
      case Some(JObject(fields)) => Ok("data: " + encode(JObject(Stamp(fields))) + "\n\n")
      case Some(_) => Err(TypeError)
  }

  /** What one received line becomes: a line that is not a `data:` line is
      forwarded with its line break restored; a `data:` line is reframed. */
  function ReframeLine(line: string, decode: string -> Option<Json>, encode: Json -> string): Result<string>
  {
    if !(DataField <= line) then Ok(line + "\n") else ReframeData(line, decode, encode)
  }

  /** What the caller receives: the reframed lines, in order, and the error
      that ended the stream early, if any. */
  datatype Relayed = Relayed(chunks: seq<string>, failure: Option<Error>)

  /** Emitting a sequence of reframing outcomes one after the other: every
      chunk is emitted until the first error, which ends the stream. */
  function Emit(outcomes: seq<Result<string>>): Relayed
    decreases |outcomes|
  {
    if outcomes == [] then Relayed([], None)
    else match outcomes[0]
      case Err(e) => Relayed([], Some(e))
      case Ok(chunk) =>
        var rest := Emit(outcomes[1..]);
        Relayed([chunk] + rest.chunks, rest.failure)
  }

  /** The outcome of reframing each upstream line. */
  function Outcomes(lines: seq<string>, decode: string -> Option<Json>, encode: Json -> string): (r: seq<Result<string>>)
    ensures |r| == |lines|
    ensures forall i :: 0 <= i < |lines| ==> r[i] == ReframeLine(lines[i], decode, encode)
  {
    seq(|lines|, i requires 0 <= i < |lines| => ReframeLine(lines[i], decode, encode))
  }

  /** The relay as a function of the whole upstream line sequence. */
  function Relay(lines: seq<string>, decode: string -> Option<Json>, encode: Json -> string): Relayed
  {
    Emit(Outcomes(lines, decode, encode))
  }

  /** The relay loop: each line is reframed and emitted before the next one
      is looked at. */
  method RelayStream(lines: seq<string>, decode: string -> Option<Json>, encode: Json -> string)
    returns (r: Relayed)
    ensures r == Relay(lines, decode, encode)
  {
    ghost var outcomes := Outcomes(lines, decode, encode);
    var emitted: seq<string> := [];
    var i := 0;
    while i < |lines|
      invariant 0 <= i <= |lines|
      invariant Emit(outcomes) == Relayed(emitted + Emit(outcomes[i..]).chunks, Emit(outcomes[i..]).failure)
    {
      assert outcomes[i..][1..] == outcomes[i + 1..];
      var chunk := ReframeLine(lines[i], decode, encode);
      if chunk.Err? {
        return Relayed(emitted, Some(chunk.error));
      }
      emitted := emitted + [chunk.value];
      i := i + 1;
    }
    assert outcomes[i..] == [];
    r := Relayed(emitted, None);
  }

  // ---------------------------------------------------------------------
  // Properties

  /** A `data:` line whose payload decodes is reframed from the stripped
      payload alone: any whitespace around it, on either side, makes no
      difference to the event sent on (or to the error raised). */
  lemma PaddingIgnoredForDecodedPayload(left: string, p: string, right: string,
                                        decode: string -> Option<Json>, encode: Json -> string)
    requires Text.AllSpace(left) && Text.AllSpace(right)
    requires p == [] || (!Text.IsSpace(p[0]) && !Text.IsSpace(p[|p| - 1]))
    requires decode(p).Some?
    ensures ReframeLine(DataField + left + p + right, decode, encode) == ReframeLine(DataField + p, decode, encode)
  {
    var padded := DataField + left + p + right;
    var bare := DataField + p;
    assert DataField <= padded && DataField <= bare;
    assert padded[|DataField|..] == left + p + right;
    assert bare[|DataField|..] == [] + p + [];
    Text.StripPadded(left, p, right);
    Text.StripPadded([], p, []);
    assert Payload(padded) == p == Payload(bare);
  }

  /** The framing of every emitted chunk: a `data:` line becomes one whole
      event (it starts with the field name and ends with the blank line that
      closes an event); any other line is passed on as one line. */
  lemma ReframeLineFraming(line: string, decode: string -> Option<Json>, encode: Json -> string)
    requires ReframeLine(line, decode, encode).Ok?
    ensures var out := ReframeLine(line, decode, encode).value;
      if DataField <= line then
        && DataField <= out && |out| >= 2 && out[|out| - 2..] == "\n\n"
      else
        out == line + "\n"
  {
    var out := ReframeLine(line, decode, encode).value;
    if DataField <= line {
      var payload := Payload(line);
      if payload == DoneSentinel {
        assert out == DoneEvent;
      } else if decode(payload).None? {
        assert out == line + "\n\n";
        assert out[..|DataField|] == line[..|DataField|];
      } else {
        var body := encode(JObject(Stamp(decode(payload).value.fields)));
        assert out == "data: " + body + "\n\n";
        assert out[..|DataField|] == "data: "[..|DataField|];
      }
    }
  }

  /** Any `[DONE]` sentinel, however it is padded with whitespace, is
      re-emitted as the canonical end-of-stream event. */
  lemma PaddedDoneIsCanonical(left: string, right: string, decode: string -> Option<Json>, encode: Json -> string)
    requires Text.AllSpace(left) && Text.AllSpace(right)
    ensures ReframeLine(DataField + left + DoneSentinel + right, decode, encode) == Ok(DoneEvent)
  {
    var line := DataField + left + DoneSentinel + right;
    assert DataField <= line;
    assert line[|DataField|..] == left + DoneSentinel + right;
    Text.StripPadded(left, DoneSentinel, right);
  }

  /** A decoded object is forwarded with the proxy's fingerprint and every
      other field it had. */
  lemma ObjectEventKeepsFields(line: string, decode: string -> Option<Json>, encode: Json -> string)
    requires DataField <= line && Payload(line) != DoneSentinel
    requires decode(Payload(line)).Some? && decode(Payload(line)).value.JObject?
    ensures exists stamped: map<string, Json> ::
              && ReframeLine(line, decode, encode) == Ok("data: " + encode(JObject(stamped)) + "\n\n")
              && stamped.Keys == decode(Payload(line)).value.fields.Keys + {"system_fingerprint"}
              && stamped["system_fingerprint"] == JString(ProxyFingerprint)
              && forall k :: k in decode(Payload(line)).value.fields && k != "system_fingerprint" ==>
                   stamped[k] == decode(Payload(line)).value.fields[k]
  {
    var stamped := Stamp(decode(Payload(line)).value.fields);
    assert ReframeLine(line, decode, encode) == Ok("data: " + encode(JObject(stamped)) + "\n\n");
  }

  /** Emitting outcomes yields the chunks of the leading successes, in
      order, and stops at the first error. */
  lemma {:induction false} EmitInOrder(outcomes: seq<Result<string>>)
    ensures var r := Emit(outcomes);
      && |r.chunks| <= |outcomes|
      && (forall i :: 0 <= i < |r.chunks| ==> outcomes[i] == Ok(r.chunks[i]))
      && (r.failure.None? <==> |r.chunks| == |outcomes|)
      && (r.failure.Some? ==> outcomes[|r.chunks|] == Err(r.failure.value))
    decreases |outcomes|
  {
    if outcomes != [] {
      var tail := outcomes[1..];
      var r := Emit(outcomes);
      match outcomes[0]
      case Err(e) =>
        assert r == Relayed([], Some(e));
      case Ok(chunk) =>
        var rest := Emit(tail);
        assert r == Relayed([chunk] + rest.chunks, rest.failure);
        EmitInOrder(tail);
        forall i | 1 <= i < |r.chunks|
          ensures outcomes[i] == Ok(r.chunks[i])
        {
          assert outcomes[i] == tail[i - 1] && r.chunks[i] == rest.chunks[i - 1];
        }
        if r.failure.Some? {
          assert outcomes[|r.chunks|] == tail[|rest.chunks|];
        }
    }
  }

  /** The relay emits exactly one chunk per line, in order, until the first
      line that cannot be reframed; that line's error ends the stream, and
      without one every line is relayed. */
  lemma RelayInOrder(lines: seq<string>, decode: string -> Option<Json>, encode: Json -> string)
    ensures var r := Relay(lines, decode, encode);
      && |r.chunks| <= |lines|
      && (forall i :: 0 <= i < |r.chunks| ==> ReframeLine(lines[i], decode, encode) == Ok(r.chunks[i]))
      && (r.failure.None? <==> |r.chunks| == |lines|)
      && (r.failure.Some? ==> ReframeLine(lines[|r.chunks|], decode, encode) == Err(r.failure.value))
  {
    EmitInOrder(Outcomes(lines, decode, encode));
  }

  /** When every line can be reframed, the stream is relayed whole. */
  lemma RelayComplete(lines: seq<string>, decode: string -> Option<Json>, encode: Json -> string)
    requires forall i :: 0 <= i < |lines| ==> ReframeLine(lines[i], decode, encode).Ok?
    ensures Relay(lines, decode, encode).failure == None
    ensures |Relay(lines, decode, encode).chunks| == |lines|
    ensures forall i :: 0 <= i < |lines| ==> Ok(Relay(lines, decode, encode).chunks[i]) == ReframeLine(lines[i], decode, encode)
  {
    RelayInOrder(lines, decode, encode);
  }
}
