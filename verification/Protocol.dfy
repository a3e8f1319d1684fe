/** Request bodies of the collector cloud (`boundedBody` in protocol.ts). */
module Protocol {
  import opened Turns
  import opened Readers

  type Byte = b: nat | b < 256

  datatype Code =
    | JsonRequired | BodyTooLarge | BodyRequired | InvalidDigest | HashMismatch | InvalidMaterial
    | InvalidCredential | DeviceRevoked | DevicePaused | UploadBusy
    | IdentityMismatch | HarnessNotAllowed | ProjectNotAllowed | HistoryNotAllowed
    | SnapshotConflict | ManifestConflict | InternalError
    | InvalidInvitation | InvitationRevoked | InvitationAlreadyClaimed | InvitationExpired
    | DeviceAlreadyRegistered | DeviceNotFound | InvitationNotFound

  /** What `String.prototype.trim` removes, unlike `str.strip`. */
  predicate Trimmed(c: char) {
    c == '\U{FEFF}' || (Space(c) && !('\U{001C}' <= c <= '\U{001F}') && c != '\U{0085}')
  }

  /** The cloud and the host disagree on what is blank at just six characters. */
  lemma BlankIn(c: char)
    ensures Trimmed(c) && !Space(c) <==> c == '\U{FEFF}'
    ensures Space(c) && !Trimmed(c) <==> '\U{001C}' <= c <= '\U{001F}' || c == '\U{0085}'
  {
  }

  /** `String.length`: characters beyond the basic plane take two units. */
  function Units(text: string): nat {
    if text == "" then 0 else Units(text[..|text| - 1]) + if text[|text| - 1] > '\U{FFFF}' then 2 else 1
  }

  ghost function Beyond(text: string): set<int> {
    set i | 0 <= i < |text| && text[i] >= '\U{10000}'
  }

  lemma BeyondBound(text: string)
    ensures |text| !in Beyond(text)
  {
  }

  /** Every character is a unit, and those beyond the basic plane are one more. */
  lemma {:induction false} UnitsIs(text: string)
    ensures Units(text) == |text| + |Beyond(text)|
  {
    if text == "" {
      assert Beyond(text) == {};
    } else {
      var front, n := text[..|text| - 1], |text| - 1;
      UnitsIs(front);
      assert forall i :: 0 <= i < n ==> front[i] == text[i];
      assert Beyond(text) == Beyond(front) + if text[n] >= '\U{10000}' then {n} else {};
      hide Beyond;
      assert n !in Beyond(front) by { BeyondBound(front); }
    }
  }

  /** `text`: not blank, not too long, no control character. */
  predicate Text(text: string, maximum: nat) {
    && (exists i :: 0 <= i < |text| && !Trimmed(text[i]))
    && Units(text) <= maximum
    && forall i :: 0 <= i < |text| ==> text[i] > '\U{001F}'
  }

  datatype Answer<+T> = Given(value: T) | Refused(code: Code)

  /** The Content-Length header; only decimal digits make a length. */
  datatype Declared = Absent | Digits(length: nat) | Malformed

  datatype Request = Request(json: bool, declared: Declared, body: Option<seq<seq<Byte>>>)

  /** The header states no length, or one within the limit. */
  predicate Fits(declared: Declared, maximum: nat) {
    declared.Absent? || (declared.Digits? && declared.length <= maximum)
  }

  lemma {:induction false} FlattenFront<T>(parts: seq<seq<T>>, i: nat)
    requires i < |parts|
    ensures Flatten(parts[..i + 1]) == Flatten(parts[..i]) + parts[i]
    ensures |Flatten(parts[..i + 1])| <= |Flatten(parts)|
    decreases |parts| - i
  {
    assert parts[..i + 1][..i] == parts[..i];
    if i + 1 == |parts| {
      assert parts[..i + 1] == parts;
    } else {
      FlattenFront(parts, i + 1);
    }
  }

  /** The bytes of an accepted body are the stream, whatever chunks it came in; a stream over
      the limit is refused at the first chunk that crosses it, and no chunk after that is read. */
  method BoundedBody(request: Request, maximum: nat) returns (answer: Answer<seq<Byte>>, read: nat)
    ensures !request.json ==> answer == Refused(JsonRequired) && read == 0
    ensures request.json && !Fits(request.declared, maximum) ==> answer == Refused(BodyTooLarge) && read == 0
    ensures request.json && Fits(request.declared, maximum) && request.body.None? ==>
              answer == Refused(BodyRequired) && read == 0
    ensures request.json && Fits(request.declared, maximum) && request.body.Some? ==>
              var chunks := request.body.value;
              && read <= |chunks|
              && (|Flatten(chunks)| <= maximum ==> answer == Given(Flatten(chunks)) && read == |chunks|)
              && (|Flatten(chunks)| > maximum ==>
                    && answer == Refused(BodyTooLarge) && read > 0
                    && |Flatten(chunks[..read - 1])| <= maximum < |Flatten(chunks[..read])|)
  {
    if !request.json { return Refused(JsonRequired), 0; }
    match request.declared {
      case Malformed => return Refused(BodyTooLarge), 0;
      case Digits(length) => if length > maximum { return Refused(BodyTooLarge), 0; }
      case Absent =>
    }
    if request.body.None? { return Refused(BodyRequired), 0; }
    var stream := request.body.value;
    var chunks: seq<seq<Byte>> := [];
    var total := 0;
    read := 0;
    while read < |stream|
      invariant read <= |stream| && chunks == stream[..read]
      invariant total == |Flatten(stream[..read])| <= maximum
    {
      FlattenFront(stream, read);
      var chunk := stream[read];
      read := read + 1;
      total := total + |chunk|;
      if total > maximum { return Refused(BodyTooLarge), read; }
      chunks := chunks + [chunk];
    }
    assert stream[..read] == stream == chunks;
    var result := Assemble(chunks, total);
    answer := Given(result);
  }

  /** The second loop: every chunk is copied behind those before it. */
  method Assemble(chunks: seq<seq<Byte>>, total: nat) returns (bytes: seq<Byte>)
    requires total == |Flatten(chunks)|
    ensures bytes == Flatten(chunks)
  {
    var result := new Byte[total](_ => 0);
    var position := 0;
    for i := 0 to |chunks|
      invariant position == |Flatten(chunks[..i])| <= total
      invariant result[..position] == Flatten(chunks[..i])
    {
      FlattenFront(chunks, i);
      SetAt(result, chunks[i], position);
      position := position + |chunks[i]|;
    }
    assert chunks[..|chunks|] == chunks && position == total;
    assert result[..position] == result[..];
    bytes := result[..];
  }

  /** `Uint8Array.set`. */
  method SetAt(target: array<Byte>, chunk: seq<Byte>, position: nat)
    requires position + |chunk| <= target.Length
    modifies target
    ensures target[..position + |chunk|] == old(target[..position]) + chunk
  {
    for i := 0 to |chunk|
      invariant target[..position + i] == old(target[..position]) + chunk[..i]
    {
      target[position + i] := chunk[i];
    }
    assert chunk[..|chunk|] == chunk;
  }
}
