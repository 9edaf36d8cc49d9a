/** What a membership manager tells its application: the events that Network
    and ConnectionManager fire carry either the local peer id or a member
    connection. */
module PeerEvents {
  import opened Connections

  /** Arguments of the events a Network or ConnectionManager fires. */
  datatype PeerEventArg = PeerId(id: string) | Member(conn: Connection)
}
