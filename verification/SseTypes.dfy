/** The plain types that cross between the Rust core and the application, each with its format. */
module SseTypes {
  import opened Basics
  import opened Model
  import opened Octets
  import opened Sse

  /** Byte order of the machine, and UTF-8, of which only that decoding undoes encoding is used. */
  datatype Format = Format(little: bool, toUtf8: string -> bytes, fromUtf8: bytes -> Option<string>)
  {
    ghost predicate Valid() {
      forall s: string :: fromUtf8(toUtf8(s)) == Some(s)
    }
  }

  datatype RTCStatus =
    | SdpExchanged
    | Connected
    | PinRequired
    | TooManyAttempts
    | Declined
    | Sending
    | Finished
    | Failed(message: string)

  function Octet(f: Format): Codec<byte> {
    Mapped(Number(1, f.little), (b: byte) => b as nat, (n: nat) => if n < 256 then Some(n as byte) else None)
  }

  function U16(f: Format): Codec<u16> {
    Mapped(Number(2, f.little), (v: u16) => v as nat, (n: nat) => if n < 0x1_0000 then Some(n as u16) else None)
  }

  function U64(f: Format): Codec<u64> {
    Mapped(Number(8, f.little), (v: u64) => v as nat,
           (n: nat) => if n < 0x1_0000_0000_0000_0000 then Some(n as u64) else None)
  }

  function Bool(f: Format): Codec<bool> {
    Mapped(Number(1, f.little), (b: bool) => if b then 1 else 0, (n: nat) => Some(n != 0))
  }

  function Bytes(f: Format): Codec<bytes> {
    Vector(Octet(f), f.little)
  }

  function Str(f: Format): Codec<string> {
    Mapped(Bytes(f), (s: string) => f.toUtf8(s), (b: bytes) => f.fromUtf8(b))
  }

  /** The sixteen octets of a UUID are in network order on every machine, as a vector. */
  function UuidBytes(f: Format): Codec<Uuid> {
    Mapped(Bytes(f), (id: Uuid) => NumberBytes(id as nat, 16, false), UuidFromSlice)
  }

  function UuidFromSlice(b: bytes): Option<Uuid> {
    if |b| == 16 then
      NumberBound(b, false);
      Powers();
      Some(BytesNumber(b, false) as Uuid)
    else None
  }

  function DeviceTag(t: DeviceType): i32 {
    match t case Mobile => 0 case Desktop => 1 case Web => 2 case Headless => 3 case Server => 4
  }

  function DeviceOf(tag: i32): Option<DeviceType> {
    if tag == 0 then Some(Mobile)
    else if tag == 1 then Some(Desktop)
    else if tag == 2 then Some(Web)
    else if tag == 3 then Some(Headless)
    else if tag == 4 then Some(DeviceType.Server)
    else None
  }

  function Device(f: Format): Codec<DeviceType> {
    Mapped(I32(f.little), DeviceTag, DeviceOf)
  }

  lemma BasicsRoundTrip(f: Format)
    requires f.Valid()
    ensures RoundTrips(Octet(f)) && RoundTrips(U16(f)) && RoundTrips(U64(f)) && RoundTrips(Bool(f))
    ensures RoundTrips(Bytes(f)) && RoundTrips(Str(f)) && RoundTrips(UuidBytes(f)) && RoundTrips(Device(f))
  {
    hide RoundTrips, Mapped, Vector, I32, Number;
    Powers();
    NumberRoundTrips(1, f.little);
    NumberRoundTrips(2, f.little);
    NumberRoundTrips(8, f.little);
    MappedRoundTrips(Number(1, f.little), (b: byte) => b as nat, (n: nat) => if n < 256 then Some(n as byte) else None);
    MappedRoundTrips(Number(2, f.little), (v: u16) => v as nat, (n: nat) => if n < 0x1_0000 then Some(n as u16) else None);
    MappedRoundTrips(Number(8, f.little), (v: u64) => v as nat,
                     (n: nat) => if n < 0x1_0000_0000_0000_0000 then Some(n as u64) else None);
    MappedRoundTrips(Number(1, f.little), (b: bool) => if b then 1 else 0, (n: nat) => Some(n != 0));
    VectorRoundTrips(Octet(f), f.little);
    MappedRoundTrips(Bytes(f), (s: string) => f.toUtf8(s), (b: bytes) => f.fromUtf8(b));
    forall id: Uuid ensures UuidFromSlice(NumberBytes(id as nat, 16, false)) == Some(id) {
      NumberRead(id as nat, 16, false);
    }
    MappedRoundTrips(Bytes(f), (id: Uuid) => NumberBytes(id as nat, 16, false), UuidFromSlice);
    I32RoundTrips(f.little);
    MappedRoundTrips(I32(f.little), DeviceTag, DeviceOf);
  }

  // ---- Records ----------------------------------------------------------------------------------

  function Info(f: Format): Codec<ClientInfoWithoutId> {
    Mapped(Both(Str(f), Both(Str(f), Both(Maybe(Str(f)), Both(Maybe(Device(f)), Str(f))))), InfoFields, InfoOf)
  }

  type InfoTuple = (string, (string, (Option<string>, (Option<DeviceType>, string))))

  function InfoFields(i: ClientInfoWithoutId): InfoTuple {
    (i.alias, (i.version, (i.deviceModel, (i.deviceType, i.token))))
  }

  function InfoOf(t: InfoTuple): Option<ClientInfoWithoutId> {
    Some(ClientInfoWithoutId(t.0, t.1.0, t.1.1.0, t.1.1.1.0, t.1.1.1.1))
  }

  /** The identifier comes first, and then the same fields as without it. */
  function Client(f: Format): Codec<ClientInfo> {
    Mapped(Both(UuidBytes(f), Info(f)), (c: ClientInfo) => (c.id, c.info),
           (t: (Uuid, ClientInfoWithoutId)) => Some(ClientInfo(t.0, t.1)))
  }

  function Sdp(f: Format): Codec<SdpMessage> {
    Mapped(Both(Client(f), Both(Str(f), Str(f))), (m: SdpMessage) => (m.peer, (m.sessionId, m.sdp)),
           (t: (ClientInfo, (string, string))) => Some(SdpMessage(t.0, t.1.0, t.1.1)))
  }

  function Metadata(f: Format): Codec<FileMetadata> {
    Mapped(Both(Maybe(Str(f)), Maybe(Str(f))), (m: FileMetadata) => (m.modified, m.accessed),
           (t: (Option<string>, Option<string>)) => Some(FileMetadata(t.0, t.1)))
  }

  type FileTuple = (string, (string, (u64, (string, (Option<string>, (Option<string>, Option<FileMetadata>))))))

  function FileFields(d: FileDto): FileTuple {
    (d.id, (d.fileName, (d.size, (d.fileType, (d.sha256, (d.preview, d.metadata))))))
  }

  function FileOf(t: FileTuple): Option<FileDto> {
    var (id, (fileName, (size, (fileType, (sha256, (preview, metadata)))))) := t;
    Some(FileDto(id, fileName, size, fileType, sha256, preview, metadata))
  }

  function File(f: Format): Codec<FileDto> {
    Mapped(Both(Str(f), Both(Str(f), Both(U64(f), Both(Str(f), Both(Maybe(Str(f)), Both(Maybe(Str(f)), Maybe(Metadata(f)))))))),
           FileFields, FileOf)
  }

  lemma RecordsRoundTrip(f: Format)
    requires f.Valid()
    ensures RoundTrips(Info(f)) && RoundTrips(Client(f)) && RoundTrips(Sdp(f))
  {
    hide RoundTrips, Mapped, Maybe, Both, Str, Device, UuidBytes;
    BasicsRoundTrip(f);
    MaybeRoundTrips(Str(f));
    MaybeRoundTrips(Device(f));
    BothRoundTrip(Maybe(Device(f)), Str(f));
    BothRoundTrip(Maybe(Str(f)), Both(Maybe(Device(f)), Str(f)));
    BothRoundTrip(Str(f), Both(Maybe(Str(f)), Both(Maybe(Device(f)), Str(f))));
    BothRoundTrip(Str(f), Both(Str(f), Both(Maybe(Str(f)), Both(Maybe(Device(f)), Str(f)))));
    MappedRoundTrips(Both(Str(f), Both(Str(f), Both(Maybe(Str(f)), Both(Maybe(Device(f)), Str(f))))), InfoFields, InfoOf);
    BothRoundTrip(UuidBytes(f), Info(f));
    MappedRoundTrips(Both(UuidBytes(f), Info(f)), (c: ClientInfo) => (c.id, c.info),
                     (t: (Uuid, ClientInfoWithoutId)) => Some(ClientInfo(t.0, t.1)));
    BothRoundTrip(Str(f), Str(f));
    BothRoundTrip(Client(f), Both(Str(f), Str(f)));
    MappedRoundTrips(Both(Client(f), Both(Str(f), Str(f))), (m: SdpMessage) => (m.peer, (m.sessionId, m.sdp)),
                     (t: (ClientInfo, (string, string))) => Some(SdpMessage(t.0, t.1.0, t.1.1)));
  }

  /** What the application is told about a file survives the crossing, and so does a whole list of files. */
  lemma FilesRoundTrip(f: Format)
    requires f.Valid()
    ensures RoundTrips(File(f)) && RoundTrips(Vector(File(f), f.little))
  {
    hide RoundTrips, Mapped, Maybe, Both, Str, U64, Vector;
    BasicsRoundTrip(f);
    MaybeRoundTrips(Str(f));
    BothRoundTrip(Maybe(Str(f)), Maybe(Str(f)));
    MappedRoundTrips(Both(Maybe(Str(f)), Maybe(Str(f))), (m: FileMetadata) => (m.modified, m.accessed),
                     (t: (Option<string>, Option<string>)) => Some(FileMetadata(t.0, t.1)));
    MaybeRoundTrips(Metadata(f));
    var c := Both(Maybe(Str(f)), Maybe(Metadata(f)));
    BothRoundTrip(Maybe(Str(f)), Maybe(Metadata(f)));
    BothRoundTrip(Maybe(Str(f)), c);
    BothRoundTrip(Str(f), Both(Maybe(Str(f)), c));
    BothRoundTrip(U64(f), Both(Str(f), Both(Maybe(Str(f)), c)));
    BothRoundTrip(Str(f), Both(U64(f), Both(Str(f), Both(Maybe(Str(f)), c))));
    BothRoundTrip(Str(f), Both(Str(f), Both(U64(f), Both(Str(f), Both(Maybe(Str(f)), c)))));
    MappedRoundTrips(Both(Str(f), Both(Str(f), Both(U64(f), Both(Str(f), Both(Maybe(Str(f)), c))))), FileFields, FileOf);
    VectorRoundTrips(File(f), f.little);
  }

  // ---- Variants ---------------------------------------------------------------------------------

  /** A 32-bit tag, and the variant's fields. */
  function Tagged<T>(f: Format, tag: i32, c: Codec<T>, t: T): bytes {
    I32(f.little).encode(tag) + c.encode(t)
  }

  function Hail(f: Format): Codec<(ClientInfo, seq<ClientInfo>)> {
    Both(Client(f), Vector(Client(f), f.little))
  }

  function EncodeMessage(f: Format, msg: ServerMessage): bytes {
    match msg
    case Hello(client, peers) => Tagged(f, 0, Hail(f), (client, peers))
    case Join(peer) => Tagged(f, 1, Client(f), peer)
    case Update(peer) => Tagged(f, 2, Client(f), peer)
    case Left(peerId) => Tagged(f, 3, UuidBytes(f), peerId)
    case Offer(offer) => Tagged(f, 4, Sdp(f), offer)
    case Answer(answer) => Tagged(f, 5, Sdp(f), answer)
    case Error(code) => Tagged(f, 6, U16(f), code)
  }

  function Then<S, T>(read: Option<(S, bytes)>, to: S -> T): Option<(T, bytes)> {
    match read
    case None => None
    case Some((s, tail)) => Some((to(s), tail))
  }

  function DecodeVariant(f: Format, tag: i32, rest: bytes): Option<(ServerMessage, bytes)> {
    if tag == 0 then Then(Hail(f).decode(rest), (h: (ClientInfo, seq<ClientInfo>)) => Hello(h.0, h.1))
    else if tag == 1 then Then(Client(f).decode(rest), (p: ClientInfo) => Join(p))
    else if tag == 2 then Then(Client(f).decode(rest), (p: ClientInfo) => Update(p))
    else if tag == 3 then Then(UuidBytes(f).decode(rest), (id: Uuid) => Left(id))
    else if tag == 4 then Then(Sdp(f).decode(rest), (m: SdpMessage) => Offer(m))
    else if tag == 5 then Then(Sdp(f).decode(rest), (m: SdpMessage) => Answer(m))
    else if tag == 6 then Then(U16(f).decode(rest), (code: u16) => Error(code))
    else None
  }

  function DecodeMessage(f: Format, data: bytes): Option<(ServerMessage, bytes)> {
    match I32(f.little).decode(data)
    case None => None
    case Some((tag, rest)) => DecodeVariant(f, tag, rest)
  }

  predicate MessageFits(f: Format, msg: ServerMessage) {
    match msg
    case Hello(client, peers) => Hail(f).fits((client, peers))
    case Join(peer) => Client(f).fits(peer)
    case Update(peer) => Client(f).fits(peer)
    case Left(peerId) => UuidBytes(f).fits(peerId)
    case Offer(offer) => Sdp(f).fits(offer)
    case Answer(answer) => Sdp(f).fits(answer)
    case Error(code) => U16(f).fits(code)
  }

  function WsMessage(f: Format): Codec<ServerMessage> {
    Codec((m: ServerMessage) => EncodeMessage(f, m), (b: bytes) => DecodeMessage(f, b), (m: ServerMessage) => MessageFits(f, m))
  }

  /** The tag is read back, and leads to the fields. */
  lemma TagRead<T(!new)>(f: Format, tag: i32, c: Codec<T>, t: T, tail: bytes)
    requires RoundTrips(c) && c.fits(t)
    ensures c.decode(c.encode(t) + tail) == Some((t, tail))
    ensures DecodeMessage(f, Tagged(f, tag, c, t) + tail) == DecodeVariant(f, tag, c.encode(t) + tail)
  {
    hide I32, DecodeVariant;
    I32RoundTrips(f.little);
    var rest := c.encode(t) + tail;
    assert Tagged(f, tag, c, t) + tail == I32(f.little).encode(tag) + rest;
    assert Reads(I32(f.little), tag, rest) && Reads(c, t, tail);
  }

  lemma MessageRead(f: Format, msg: ServerMessage, tail: bytes)
    requires f.Valid() && MessageFits(f, msg)
    ensures DecodeMessage(f, EncodeMessage(f, msg) + tail) == Some((msg, tail))
  {
    hide Client, Sdp, U16, UuidBytes, Hail, Tagged, RoundTrips, DecodeMessage;
    BasicsRoundTrip(f);
    RecordsRoundTrip(f);
    HailRoundTrips(f);
    match msg
    case Hello(client, peers) => TagRead(f, 0, Hail(f), (client, peers), tail);
    case Join(peer) => TagRead(f, 1, Client(f), peer, tail);
    case Update(peer) => TagRead(f, 2, Client(f), peer, tail);
    case Left(peerId) => TagRead(f, 3, UuidBytes(f), peerId, tail);
    case Offer(offer) => TagRead(f, 4, Sdp(f), offer, tail);
    case Answer(answer) => TagRead(f, 5, Sdp(f), answer, tail);
    case Error(code) => TagRead(f, 6, U16(f), code, tail);
  }

  lemma HailRoundTrips(f: Format)
    requires f.Valid()
    ensures RoundTrips(Hail(f))
  {
    hide RoundTrips, Client, Vector, Both;
    RecordsRoundTrip(f);
    VectorRoundTrips(Client(f), f.little);
    BothRoundTrip(Client(f), Vector(Client(f), f.little));
  }

  /** Every message of the signaling server survives the crossing, whatever follows it. */
  lemma MessagesRoundTrip(f: Format)
    requires f.Valid()
    ensures RoundTrips(WsMessage(f))
  {
    hide EncodeMessage, DecodeMessage, MessageFits;
    forall msg: ServerMessage, tail: bytes | WsMessage(f).fits(msg) ensures Reads(WsMessage(f), msg, tail) {
      MessageRead(f, msg, tail);
    }
  }

  lemma SmallTag(f: Format, n: nat)
    requires n < 256
    ensures I32(f.little).encode(n as i32) == if f.little then [n, 0, 0, 0] else [0, 0, 0, n]
  {
    SmallNumber(n);
  }

  lemma UuidLayout(f: Format, id: Uuid)
    ensures UuidBytes(f).encode(id)
         == (if f.little then [16, 0, 0, 0] else [0, 0, 0, 16]) + NumberBytes(id as nat, 16, false)
  {
    hide I32, Octet;
    var b := NumberBytes(id as nat, 16, false);
    OctetItems(f, b);
    SmallTag(f, 16);
    LengthKept(16);
    assert UuidBytes(f).encode(id) == EncodeVector(Octet(f), f.little, b);
  }

  /** A message as it lies in memory: tag and length in the order of the machine, the identifier in network order. */
  lemma LeftLayout(f: Format, id: Uuid)
    ensures EncodeMessage(f, Left(id)) ==
              (if f.little then [3, 0, 0, 0] else [0, 0, 0, 3])
              + ((if f.little then [16, 0, 0, 0] else [0, 0, 0, 16]) + NumberBytes(id as nat, 16, false))
  {
    hide I32, UuidBytes, NumberBytes, Client, Sdp, Hail, U16;
    SmallTag(f, 3);
    UuidLayout(f, id);
  }

  lemma {:induction false} OctetItems(f: Format, b: bytes)
    ensures Items(Octet(f), b) == b
  {
    if b != [] {
      OctetItems(f, b[1..]);
      assert NumberBytes(b[0], 1, f.little) == [b[0]] by {
        assert NumberBytes(0, 0, f.little) == [];
      }
    }
  }

  // The session's status. Only one variant has a field.

  function StatusTag(s: RTCStatus): i32 {
    match s
    case SdpExchanged => 0
    case Connected => 1
    case PinRequired => 2
    case TooManyAttempts => 3
    case Declined => 4
    case Sending => 5
    case Finished => 6
    case Failed(_) => 7
  }

  function StatusOf(tag: i32): Option<RTCStatus> {
    if tag == 0 then Some(SdpExchanged)
    else if tag == 1 then Some(Connected)
    else if tag == 2 then Some(PinRequired)
    else if tag == 3 then Some(TooManyAttempts)
    else if tag == 4 then Some(Declined)
    else if tag == 5 then Some(Sending)
    else if tag == 6 then Some(Finished)
    else None
  }

  function EncodeStatus(f: Format, s: RTCStatus): bytes {
    I32(f.little).encode(StatusTag(s)) + (if s.Failed? then Str(f).encode(s.message) else [])
  }

  function DecodeStatus(f: Format, data: bytes): Option<(RTCStatus, bytes)> {
    match I32(f.little).decode(data)
    case None => None
    case Some((tag, rest)) =>
      if tag == 7 then Then(Str(f).decode(rest), (message: string) => Failed(message))
      else (match StatusOf(tag) case None => None case Some(s) => Some((s, rest)))
  }

  function Status(f: Format): Codec<RTCStatus> {
    Codec((s: RTCStatus) => EncodeStatus(f, s), (b: bytes) => DecodeStatus(f, b),
          (s: RTCStatus) => s.Failed? ==> Str(f).fits(s.message))
  }

  lemma StatusRead(f: Format, s: RTCStatus, tail: bytes)
    requires f.Valid() && (s.Failed? ==> Str(f).fits(s.message))
    ensures DecodeStatus(f, EncodeStatus(f, s) + tail) == Some((s, tail))
  {
    hide I32, Str, RoundTrips;
    I32RoundTrips(f.little);
    BasicsRoundTrip(f);
    var rest := (if s.Failed? then Str(f).encode(s.message) else []) + tail;
    assert EncodeStatus(f, s) + tail == I32(f.little).encode(StatusTag(s)) + rest;
    CodecReads(I32(f.little), StatusTag(s), rest);
    if s.Failed? {
      CodecReads(Str(f), s.message, tail);
    } else {
      assert rest == tail;
      assert StatusOf(StatusTag(s)) == Some(s) && StatusTag(s) != 7;
    }
  }

  lemma CodecReads<T(!new)>(c: Codec<T>, t: T, tail: bytes)
    requires RoundTrips(c) && c.fits(t)
    ensures c.decode(c.encode(t) + tail) == Some((t, tail))
  {
    assert Reads(c, t, tail);
  }

  lemma StatusRoundTrips(f: Format)
    requires f.Valid()
    ensures RoundTrips(Status(f))
  {
    hide EncodeStatus, DecodeStatus;
    forall s: RTCStatus, tail: bytes | Status(f).fits(s) ensures Reads(Status(f), s, tail) {
      StatusRead(f, s, tail);
    }
  }

  // ---- What fits --------------------------------------------------------------------------------

  /** A string fits if its UTF-8 form has fewer than 2^31 octets. */
  predicate Short(f: Format, s: string) {
    |f.toUtf8(s)| < 0x8000_0000
  }

  predicate ShortIfAny(f: Format, s: Option<string>) {
    s.Some? ==> Short(f, s.value)
  }

  predicate ShortInfo(f: Format, i: ClientInfoWithoutId) {
    Short(f, i.alias) && Short(f, i.version) && ShortIfAny(f, i.deviceModel) && Short(f, i.token)
  }

  lemma TextFits(f: Format, s: string)
    requires f.Valid()
    ensures Str(f).fits(s) <==> Short(f, s)
  {
    Powers();
    assert f.fromUtf8(f.toUtf8(s)) == Some(s);
  }

  lemma OctetFits(f: Format, b: byte)
    ensures Octet(f).fits(b)
  {
    Powers();
  }

  lemma UuidFits(f: Format, id: Uuid)
    ensures UuidBytes(f).fits(id)
  {
    hide Octet;
    var b := NumberBytes(id as nat, 16, false);
    forall i | 0 <= i < |b| ensures Octet(f).fits(b[i]) {
      OctetFits(f, b[i]);
    }
    assert Bytes(f).fits(b);
  }

  lemma DeviceFits(f: Format, t: DeviceType)
    ensures Device(f).fits(t)
  {
    hide I32;
    I32RoundTrips(f.little);
    assert I32(f.little).fits(DeviceTag(t)) && DeviceOf(DeviceTag(t)).Some?;
  }

  /** The lengths of strings and vectors are all that keeps a message from crossing. */
  lemma MessageFitsIff(f: Format, msg: ServerMessage)
    requires f.Valid()
    ensures MessageFits(f, msg) <==>
            match msg
            case Hello(client, peers) =>
              && ShortInfo(f, client.info) && |peers| < 0x8000_0000
              && forall i :: 0 <= i < |peers| ==> ShortInfo(f, peers[i].info)
            case Join(peer) => ShortInfo(f, peer.info)
            case Update(peer) => ShortInfo(f, peer.info)
            case Left(_) => true
            case Offer(m) => ShortInfo(f, m.peer.info) && Short(f, m.sessionId) && Short(f, m.sdp)
            case Answer(m) => ShortInfo(f, m.peer.info) && Short(f, m.sessionId) && Short(f, m.sdp)
            case Error(_) => true
  {
    hide Client, Str, UuidBytes, Short, ShortInfo;
    match msg
    case Hello(client, peers) =>
      ClientFits(f, client);
      forall i | 0 <= i < |peers| ensures Client(f).fits(peers[i]) <==> ShortInfo(f, peers[i].info) {
        ClientFits(f, peers[i]);
      }
    case Join(peer) => ClientFits(f, peer);
    case Update(peer) => ClientFits(f, peer);
    case Left(id) => UuidFits(f, id);
    case Offer(m) => SdpFits(f, m);
    case Answer(m) => SdpFits(f, m);
    case Error(_) => Powers();
  }

  lemma ClientFits(f: Format, c: ClientInfo)
    requires f.Valid()
    ensures Client(f).fits(c) <==> ShortInfo(f, c.info)
  {
    hide ShortInfo, UuidBytes, Info;
    InfoFits(f, c.info);
    UuidFits(f, c.id);
  }

  lemma InfoFits(f: Format, i: ClientInfoWithoutId)
    requires f.Valid()
    ensures Info(f).fits(i) <==> ShortInfo(f, i)
  {
    hide Str, Device, Short;
    TextFits(f, i.alias);
    TextFits(f, i.version);
    TextFits(f, i.token);
    if i.deviceModel.Some? {
      TextFits(f, i.deviceModel.value);
    }
    if i.deviceType.Some? {
      DeviceFits(f, i.deviceType.value);
    }
    var fields := InfoFields(i);
    assert Info(f).fits(i) <==>
             Both(Str(f), Both(Str(f), Both(Maybe(Str(f)), Both(Maybe(Device(f)), Str(f))))).fits(fields);
  }

  lemma SdpFits(f: Format, m: SdpMessage)
    requires f.Valid()
    ensures Sdp(f).fits(m) <==> ShortInfo(f, m.peer.info) && Short(f, m.sessionId) && Short(f, m.sdp)
  {
    hide Client, Str, Short, ShortInfo;
    ClientFits(f, m.peer);
    TextFits(f, m.sessionId);
    TextFits(f, m.sdp);
  }

  // ---- Sets -------------------------------------------------------------------------------------

  /** A set of strings is written as a vector in any order, and read back as the same set. */
  lemma SetRoundTrip(f: Format, strings: set<string>, order: seq<string>, tail: bytes)
    requires f.Valid() && (forall s :: s in order <==> s in strings)
    requires |order| < 0x8000_0000 && forall s :: s in strings ==> Short(f, s)
    ensures match Vector(Str(f), f.little).decode(Vector(Str(f), f.little).encode(order) + tail)
            case None => false
            case Some((items, tail')) => tail' == tail && (set s | s in items) == strings
  {
    hide Str, Vector, Short;
    BasicsRoundTrip(f);
    VectorRoundTrips(Str(f), f.little);
    OrderFits(f, order);
    assert Reads(Vector(Str(f), f.little), order, tail);
  }

  lemma OrderFits(f: Format, order: seq<string>)
    requires f.Valid() && |order| < 0x8000_0000 && forall s :: s in order ==> Short(f, s)
    ensures Vector(Str(f), f.little).fits(order)
  {
    hide Str, Short;
    forall i | 0 <= i < |order| ensures Str(f).fits(order[i]) {
      TextFits(f, order[i]);
    }
  }
}
