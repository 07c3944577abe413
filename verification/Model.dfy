/** The records exchanged between devices, server and application. */
module Model {
  import opened Basics

  /** A UUID, as the 128-bit number it is. */
  newtype Uuid = v: int | 0 <= v < 0x1_0000_0000_0000_0000_0000_0000_0000_0000

  datatype DeviceType = Mobile | Desktop | Web | Headless | Server

  datatype FileMetadata = FileMetadata(modified: Option<string>, accessed: Option<string>)

  datatype FileDto = FileDto(
    id: string, fileName: string, size: u64, fileType: string,
    sha256: Option<string>, preview: Option<string>, metadata: Option<FileMetadata>)

  datatype ClientInfoWithoutId = ClientInfoWithoutId(
    alias: string, version: string, deviceModel: Option<string>, deviceType: Option<DeviceType>, token: string)

  datatype ClientInfo = ClientInfo(id: Uuid, info: ClientInfoWithoutId)

  datatype SdpMessage = SdpMessage(peer: ClientInfo, sessionId: string, sdp: string)

  datatype ServerMessage =
    | Hello(client: ClientInfo, peers: seq<ClientInfo>)
    | Join(peer: ClientInfo)
    | Update(peer: ClientInfo)
    | Left(peerId: Uuid)
    | Offer(offer: SdpMessage)
    | Answer(answer: SdpMessage)
    | Error(code: u16)
}
