/** The parts of the RoRnet wire protocol that the relay server interprets.
    Payloads the server only passes on are kept as octets. */
module RoRnet {

  datatype Option<+T> = None | Some(value: T)

  type Octet = bv8

  const UINT32_LIMIT: nat := 0x1_0000_0000

  /** Source id the server puts on its own messages: -1 as an unsigned 32-bit pattern. */
  const SERVER_UID: nat := 0xFFFF_FFFF

  const MAX_USERNAME_LEN: nat := 40

  /** Room for the payload of a message, received or queued. */
  const MAX_MESSAGE_LENGTH: nat := 8192

  /** Size of the StreamRegister struct, and the places of its fields. */
  const REGISTRATION_SIZE: nat := 272
  const NAME_OFFSET: nat := 16
  const NAME_LAST: nat := 143

  /** Size of the id of its addressee at the beginning of a private chat line. */
  const ADDRESS_SIZE: nat := 4

  datatype MessageType =
    | Invalid
    | UserInfoMsg
    | NetQuality
    | GameCmd
    | UserJoin
    | UserLeave
    | Utf8Chat
    | Utf8PrivateChat
    | StreamRegister
    | StreamRegisterResult
    | StreamUnregister
    | StreamData
    | StreamDataDiscardable
    | Unrouted(code: nat)   // every other command: nothing is relayed for it

  /** The header's command word. */
  function Code(t: MessageType): nat {
    match t
    case Invalid => 0
    case UserInfoMsg => 1033
    case NetQuality => 1035
    case GameCmd => 1036
    case UserJoin => 1037
    case UserLeave => 1038
    case Utf8Chat => 1039
    case Utf8PrivateChat => 1040
    case StreamRegister => 1041
    case StreamRegisterResult => 1042
    case StreamUnregister => 1043
    case StreamData => 1044
    case StreamDataDiscardable => 1045
    case Unrouted(code) => code
  }

  function OfCode(code: nat): (t: MessageType)
    ensures Code(t) == code
  {
    if code == 0 then Invalid
    else if code == 1033 then UserInfoMsg
    else if code == 1035 then NetQuality
    else if code == 1036 then GameCmd
    else if code == 1037 then UserJoin
    else if code == 1038 then UserLeave
    else if code == 1039 then Utf8Chat
    else if code == 1040 then Utf8PrivateChat
    else if code == 1041 then StreamRegister
    else if code == 1042 then StreamRegisterResult
    else if code == 1043 then StreamUnregister
    else if code == 1044 then StreamData
    else if code == 1045 then StreamDataDiscardable
    else Unrouted(code)
  }

  /** The command words of the protocol, RoRnet 2.45, that the relay looks at. */
  lemma WireCodes(code: nat)
    ensures match code
            case 1033 => OfCode(code) == UserInfoMsg
            case 1035 => OfCode(code) == NetQuality
            case 1036 => OfCode(code) == GameCmd
            case 1037 => OfCode(code) == UserJoin
            case 1038 => OfCode(code) == UserLeave
            case 1039 => OfCode(code) == Utf8Chat
            case 1040 => OfCode(code) == Utf8PrivateChat
            case 1041 => OfCode(code) == StreamRegister
            case 1042 => OfCode(code) == StreamRegisterResult
            case 1043 => OfCode(code) == StreamUnregister
            case 1044 => OfCode(code) == StreamData
            case 1045 => OfCode(code) == StreamDataDiscardable
            case _ => code != 0 ==> OfCode(code) == Unrouted(code)
  {
  }

  /** A type other than `Unrouted` is found again from its command word. */
  lemma CodeOfType(t: MessageType)
    ensures OfCode(Code(t)) == t <==> (t.Unrouted? ==> t.code !in ROUTED)
  {
  }

  const ROUTED: set<nat> := {0, 1033, 1035, 1036, 1037, 1038, 1039, 1040, 1041, 1042, 1043, 1044, 1045}

  /** The user record; `token` and `guid` are blanked before it is shown to others. */
  datatype UserInfo = UserInfo(
    uid: nat,
    auth: bv32,
    colour: int,
    name: string,
    token: string,
    guid: string,
    details: string)

  const AUTH_BOT: bv32 := 8
  const AUTH_STAFF: bv32 := 5   // AUTH_ADMIN | AUTH_MOD

  predicate IsBot(u: UserInfo) {
    u.auth & AUTH_BOT != 0
  }

  predicate IsStaff(u: UserInfo) {
    u.auth & AUTH_STAFF != 0
  }

  function Public(u: UserInfo): UserInfo {
    u.(token := "", guid := "")
  }

  datatype Payload =
    | Octets(data: seq<Octet>)
    | User(info: UserInfo)
    | Quality(state: int)
    | Text            // wording of server notices is not modelled

  datatype Message = Message(kind: MessageType, source: nat, streamid: nat, payload: Payload)

  /** A stream registration is the StreamRegister struct, octet for octet. */
  type Registration = r: seq<Octet> | |r| == REGISTRATION_SIZE witness seq(REGISTRATION_SIZE, _ => 0)

  /** What a reader of a registration payload sees: missing octets read as zero. */
  function Padded(data: seq<Octet>): Registration {
    if |data| >= REGISTRATION_SIZE then data[..REGISTRATION_SIZE]
    else data + seq(REGISTRATION_SIZE - |data|, _ => 0)
  }
}
