/** The byte format, octet by octet: which fields a value consists of, in which order, and under which tag. */
module SseLayout {
  import opened Basics
  import opened Model
  import opened Octets
  import opened Sse
  import opened SseTypes

  /** Tags and lengths take four octets in the order of the machine. */
  function Word(f: Format, n: nat): bytes {
    NumberBytes(n, 4, f.little)
  }

  function Sized(f: Format, b: bytes): bytes {
    Word(f, |b|) + b
  }

  function TextOctets(f: Format, s: string): bytes {
    Sized(f, f.toUtf8(s))
  }

  /** A flag comes before a value that may be missing. */
  function OptionalText(f: Format, o: Option<string>): bytes {
    if o.None? then [0] else [1] + TextOctets(f, o.value)
  }

  function DeviceNumber(t: DeviceType): nat {
    match t
    case Mobile => 0
    case Desktop => 1
    case Web => 2
    case Headless => 3
    case Server => 4
  }

  function OptionalDevice(f: Format, o: Option<DeviceType>): bytes {
    if o.None? then [0] else [1] + Word(f, DeviceNumber(o.value))
  }

  function InfoOctets(f: Format, i: ClientInfoWithoutId): bytes {
    TextOctets(f, i.alias) + (TextOctets(f, i.version)
    + (OptionalText(f, i.deviceModel) + (OptionalDevice(f, i.deviceType) + TextOctets(f, i.token))))
  }

  /** An identifier is in network order on every machine. */
  function ClientOctets(f: Format, c: ClientInfo): bytes {
    Sized(f, NumberBytes(c.id as nat, 16, false)) + InfoOctets(f, c.info)
  }

  function ClientsOctets(f: Format, clients: seq<ClientInfo>): bytes {
    if clients == [] then [] else ClientOctets(f, clients[0]) + ClientsOctets(f, clients[1..])
  }

  function SdpOctets(f: Format, m: SdpMessage): bytes {
    ClientOctets(f, m.peer) + (TextOctets(f, m.sessionId) + TextOctets(f, m.sdp))
  }

  function MetadataOctets(f: Format, m: FileMetadata): bytes {
    OptionalText(f, m.modified) + OptionalText(f, m.accessed)
  }

  function OptionalMetadata(f: Format, o: Option<FileMetadata>): bytes {
    if o.None? then [0] else [1] + MetadataOctets(f, o.value)
  }

  function FileOctets(f: Format, d: FileDto): bytes {
    TextOctets(f, d.id) + (TextOctets(f, d.fileName) + (NumberBytes(d.size as nat, 8, f.little)
    + (TextOctets(f, d.fileType)
       + (OptionalText(f, d.sha256) + (OptionalText(f, d.preview) + OptionalMetadata(f, d.metadata))))))
  }

  function MessageOctets(f: Format, msg: ServerMessage): bytes {
    match msg
    case Hello(client, peers) => Word(f, 0) + (ClientOctets(f, client) + (Word(f, |peers|) + ClientsOctets(f, peers)))
    case Join(peer) => Word(f, 1) + ClientOctets(f, peer)
    case Update(peer) => Word(f, 2) + ClientOctets(f, peer)
    case Left(id) => Word(f, 3) + Sized(f, NumberBytes(id as nat, 16, false))
    case Offer(m) => Word(f, 4) + SdpOctets(f, m)
    case Answer(m) => Word(f, 5) + SdpOctets(f, m)
    case Error(code) => Word(f, 6) + NumberBytes(code as nat, 2, f.little)
  }

  function StatusOctets(f: Format, s: RTCStatus): bytes {
    match s
    case SdpExchanged => Word(f, 0)
    case Connected => Word(f, 1)
    case PinRequired => Word(f, 2)
    case TooManyAttempts => Word(f, 3)
    case Declined => Word(f, 4)
    case Sending => Word(f, 5)
    case Finished => Word(f, 6)
    case Failed(message) => Word(f, 7) + TextOctets(f, message)
  }

  lemma WordLayout(f: Format, n: nat)
    requires n < 0x8000_0000
    ensures I32(f.little).encode(n as i32) == Word(f, n)
  {
    hide NumberBytes;
  }

  lemma BytesLayout(f: Format, b: bytes)
    requires |b| < 0x8000_0000
    ensures Bytes(f).encode(b) == Sized(f, b)
  {
    hide I32, Octet, NumberBytes;
    OctetItems(f, b);
    LengthKept(|b|);
    WordLayout(f, |b|);
    assert Bytes(f).encode(b) == EncodeVector(Octet(f), f.little, b);
  }

  lemma TextLayout(f: Format, s: string)
    requires Short(f, s)
    ensures Str(f).encode(s) == TextOctets(f, s)
  {
    hide Bytes, Sized;
    BytesLayout(f, f.toUtf8(s));
  }

  lemma MaybeTextLayout(f: Format, o: Option<string>)
    requires ShortIfAny(f, o)
    ensures Maybe(Str(f)).encode(o) == OptionalText(f, o)
  {
    hide Str, TextOctets;
    if o.Some? {
      TextLayout(f, o.value);
    }
  }

  lemma DeviceLayout(f: Format, o: Option<DeviceType>)
    ensures Maybe(Device(f)).encode(o) == OptionalDevice(f, o)
  {
    hide I32, Word;
    if o.Some? {
      WordLayout(f, DeviceNumber(o.value));
      assert Device(f).encode(o.value) == I32(f.little).encode(DeviceTag(o.value));
    }
  }

  lemma InfoLayout(f: Format, i: ClientInfoWithoutId)
    requires ShortInfo(f, i)
    ensures Info(f).encode(i) == InfoOctets(f, i)
  {
    hide Str, Device, Maybe, TextOctets, OptionalText, OptionalDevice, Word, Short;
    TextLayout(f, i.alias);
    TextLayout(f, i.version);
    MaybeTextLayout(f, i.deviceModel);
    DeviceLayout(f, i.deviceType);
    TextLayout(f, i.token);
    var fields := InfoFields(i);
    assert Info(f).encode(i)
        == Both(Str(f), Both(Str(f), Both(Maybe(Str(f)), Both(Maybe(Device(f)), Str(f))))).encode(fields);
  }

  lemma ClientLayout(f: Format, c: ClientInfo)
    requires ShortInfo(f, c.info)
    ensures Client(f).encode(c) == ClientOctets(f, c)
  {
    hide Info, InfoOctets, Bytes, Sized, NumberBytes, ShortInfo;
    InfoLayout(f, c.info);
    BytesLayout(f, NumberBytes(c.id as nat, 16, false));
    assert UuidBytes(f).encode(c.id) == Bytes(f).encode(NumberBytes(c.id as nat, 16, false));
  }

  lemma {:induction false} ClientsLayout(f: Format, clients: seq<ClientInfo>)
    requires forall i :: 0 <= i < |clients| ==> ShortInfo(f, clients[i].info)
    ensures Items(Client(f), clients) == ClientsOctets(f, clients)
  {
    hide Client, ClientOctets, ShortInfo;
    if clients != [] {
      ClientLayout(f, clients[0]);
      ClientsLayout(f, clients[1..]);
    }
  }

  lemma SdpLayout(f: Format, m: SdpMessage)
    requires ShortInfo(f, m.peer.info) && Short(f, m.sessionId) && Short(f, m.sdp)
    ensures Sdp(f).encode(m) == SdpOctets(f, m)
  {
    hide Client, ClientOctets, Str, TextOctets, Short, ShortInfo;
    ClientLayout(f, m.peer);
    TextLayout(f, m.sessionId);
    TextLayout(f, m.sdp);
  }

  /** Every message that can cross, as it lies in memory. */
  lemma MessageLayout(f: Format, msg: ServerMessage)
    requires f.Valid() && MessageFits(f, msg)
    ensures EncodeMessage(f, msg) == MessageOctets(f, msg)
  {
    MessageFitsIff(f, msg);
    hide I32, Client, ClientOctets, Sdp, SdpOctets, Sized, Word, Short, ShortInfo, NumberBytes, MessageFits;
    match msg
    case Hello(client, peers) => HelloLayout(f, client, peers);
    case Join(peer) =>
      WordLayout(f, 1);
      ClientLayout(f, peer);
    case Update(peer) =>
      WordLayout(f, 2);
      ClientLayout(f, peer);
    case Left(id) => GoneLayout(f, id);
    case Offer(m) =>
      WordLayout(f, 4);
      SdpLayout(f, m);
    case Answer(m) =>
      WordLayout(f, 5);
      SdpLayout(f, m);
    case Error(_) => WordLayout(f, 6);
  }

  lemma HelloLayout(f: Format, client: ClientInfo, peers: seq<ClientInfo>)
    requires ShortInfo(f, client.info) && |peers| < 0x8000_0000
    requires forall i :: 0 <= i < |peers| ==> ShortInfo(f, peers[i].info)
    ensures EncodeMessage(f, Hello(client, peers)) == MessageOctets(f, Hello(client, peers))
  {
    hide I32, Client, ClientOctets, Word, ShortInfo;
    WordLayout(f, 0);
    ClientLayout(f, client);
    ClientsLayout(f, peers);
    LengthKept(|peers|);
    WordLayout(f, |peers|);
    assert Vector(Client(f), f.little).encode(peers) == Word(f, |peers|) + ClientsOctets(f, peers);
  }

  lemma GoneLayout(f: Format, id: Uuid)
    ensures EncodeMessage(f, Left(id)) == MessageOctets(f, Left(id))
  {
    hide I32, Bytes, Word, Sized, NumberBytes;
    WordLayout(f, 3);
    BytesLayout(f, NumberBytes(id as nat, 16, false));
    assert UuidBytes(f).encode(id) == Bytes(f).encode(NumberBytes(id as nat, 16, false));
  }

  /** The same for session statuses. */
  lemma StatusLayout(f: Format, s: RTCStatus)
    requires s.Failed? ==> Short(f, s.message)
    ensures EncodeStatus(f, s) == StatusOctets(f, s)
  {
    hide I32, Word, Str, TextOctets, Short;
    WordLayout(f, StatusTag(s) as nat);
    if s.Failed? {
      TextLayout(f, s.message);
    } else {
      assert I32(f.little).encode(StatusTag(s)) + [] == I32(f.little).encode(StatusTag(s));
    }
  }

  predicate ShortFile(f: Format, d: FileDto) {
    && Short(f, d.id) && Short(f, d.fileName) && Short(f, d.fileType) && ShortIfAny(f, d.sha256)
    && ShortIfAny(f, d.preview)
    && (d.metadata.Some? ==> ShortIfAny(f, d.metadata.value.modified) && ShortIfAny(f, d.metadata.value.accessed))
  }

  /** And for file descriptions. */
  lemma FileLayout(f: Format, d: FileDto)
    requires ShortFile(f, d)
    ensures File(f).encode(d) == FileOctets(f, d)
  {
    hide Str, Maybe, TextOctets, OptionalText, OptionalMetadata, Metadata, MetadataOctets, NumberBytes, Short, ShortIfAny;
    TextLayout(f, d.id);
    TextLayout(f, d.fileName);
    TextLayout(f, d.fileType);
    MaybeTextLayout(f, d.sha256);
    MaybeTextLayout(f, d.preview);
    MetadataLayout(f, d.metadata);
    var fields := FileFields(d);
    var rest := Both(U64(f), Both(Str(f), Both(Maybe(Str(f)), Both(Maybe(Str(f)), Maybe(Metadata(f))))));
    assert File(f).encode(d) == Both(Str(f), Both(Str(f), rest)).encode(fields);
  }

  lemma MetadataLayout(f: Format, o: Option<FileMetadata>)
    requires o.Some? ==> ShortIfAny(f, o.value.modified) && ShortIfAny(f, o.value.accessed)
    ensures Maybe(Metadata(f)).encode(o) == OptionalMetadata(f, o)
  {
    if o.Some? {
      MaybeTextLayout(f, o.value.modified);
      MaybeTextLayout(f, o.value.accessed);
      assert Metadata(f).encode(o.value) == MetadataOctets(f, o.value) by {
        hide Str, Maybe, TextOctets, OptionalText;
      }
      hide Metadata, MetadataOctets;
    }
  }
}
