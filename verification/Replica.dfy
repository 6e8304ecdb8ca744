/** What a client knows: the view it rebuilds from the messages sent to it. */
module Replica {
  import opened RoRnet

  datatype View = View(users: map<nat, UserInfo>, streams: map<(nat, nat), Registration>)

  const EMPTY := View(map[], map[])

  function Apply(v: View, m: Message): View {
    match m.kind
    case UserJoin => ShowUser(v, m)
    case UserInfoMsg => ShowUser(v, m)
    case UserLeave =>
      View(v.users - {m.source},
           map k | k in v.streams && k.0 != m.source :: v.streams[k])
    case StreamRegister =>
      if m.payload.Octets?
      then v.(streams := v.streams[(m.source, m.streamid) := Padded(m.payload.data)])
      else v
    case StreamUnregister =>
      v.(streams := v.streams - {(m.source, m.streamid)})
    case _ => v
  }

  function ShowUser(v: View, m: Message): View {
    if m.payload.User? then v.(users := v.users[m.source := m.payload.info]) else v
  }

  /** The view after receiving `log` from the first message to the last. */
  function Replay(log: seq<Message>): View {
    if log == [] then EMPTY
    else Apply(Replay(log[..|log| - 1]), log[|log| - 1])
  }

  function UserSeen(v: View, uid: nat): Option<UserInfo> {
    if uid in v.users then Some(v.users[uid]) else None
  }

  function StreamSeen(v: View, uid: nat, sid: nat): Option<Registration> {
    if (uid, sid) in v.streams then Some(v.streams[(uid, sid)]) else None
  }

  /** Messages that never change a view. */
  predicate Neutral(m: Message) {
    !m.kind.UserJoin? && !m.kind.UserInfoMsg? && !m.kind.UserLeave? &&
    !m.kind.StreamRegister? && !m.kind.StreamUnregister?
  }

  lemma ReplayAppend(log: seq<Message>, m: Message)
    ensures Replay(log + [m]) == Apply(Replay(log), m)
  {
    assert (log + [m])[..|log|] == log;
  }
}
