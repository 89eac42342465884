/** The typed messages the server sends, without timestamps and random identifiers (internal/radio/protocol.go). */
module Messages {
  import opened Bytes

  datatype VoiceRecording = VoiceRecording(channelID: int, callsign: string, role: string, nanos: nat,
                                           durationTenths: nat, fileURL: string, sizeBytes: nat)

  datatype ChatBody =
    | Text(text: string, fileURL: string)
    | Voice(durationTenths: nat, recordingURL: string, fileName: string)

  datatype ChatMessage = ChatMessage(channelID: int, senderID: string, callsign: string, body: ChatBody)

  datatype Video = Video(channelID: int, senderID: string, callsign: string, isScreen: bool)

  datatype ChannelInfo = ChannelInfo(id: int, name: string, isPrivate: bool, userCount: nat, isBusy: bool,
                                     currentSpeaker: string)

  datatype FloorStatus = Granted | Denied | Busy | Idle | Timeout

  datatype Message =
    | ClientWelcome(id: string, callsign: string, channelID: int)
    | ChannelList(channels: seq<ChannelInfo>)
    | UserList(channelID: int, count: nat)
    | ChatHistory(channelID: int, messages: seq<ChatMessage>)
    | Chat(message: ChatMessage)
    | VideoCallStart(video: Video)
    | VideoCallEnd(channelID: int, senderID: string, callsign: string)
    | FloorStatusChange(channelID: int, status: FloorStatus, reason: string, currentSpeaker: string, speakerID: string)
    | UserTalking(channelID: int, userID: string, callsign: string)
    | UserStopped(channelID: int, userID: string, callsign: string)
    | ChannelActivity(channelID: int, isBusy: bool)
    | TransmissionRecorded(recording: VoiceRecording)
    | ErrorText(text: string)

  /** What a client's queue holds: a marshalled message or an audio packet. */
  datatype Frame = Json(message: Message) | Audio(data: seq<byte>)
}
