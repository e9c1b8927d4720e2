/** Node roles and the locally stored peer record (`peer_info.json`).
    The JSON file is abstracted as what reading it yields: no file, content that
    does not parse, or a parsed record. Each save reads the record, changes some
    fields and writes the whole record back, so it is a function from the stored
    file to the stored file. Write failures are not modelled. */
module Node {
  import opened Common

  /** The role a node plays in the network. */
  datatype NodeType = Provider | Distributor | Consumer

  /** May serve content of its own. */
  predicate CanProvide(t: NodeType)
  {
    t.Provider? || t.Distributor?
  }

  /** May hold and serve chunks of other nodes' content. */
  predicate CanDistribute(t: NodeType)
  {
    t.Distributor?
  }

  /** Every role may fetch content. */
  predicate CanConsume(t: NodeType)
  {
    true
  }

  function ToString(t: NodeType): (s: string)
    ensures |s| > 0
  {
    match t
    case Provider => "Provider"
    case Distributor => "Distributor"
    case Consumer => "Consumer"
  }

  /** The exact, case-sensitive inverse of `ToString`. */
  function FromString(s: string): (r: Option<NodeType>)
    ensures r.Some? <==> s == "Provider" || s == "Distributor" || s == "Consumer"
  {
    if s == "Provider" then Some(Provider)
    else if s == "Distributor" then Some(Distributor)
    else if s == "Consumer" then Some(Consumer)
    else None
  }

  /** Parsing the name of a role gives that role back. */
  lemma RoleNameRoundTrip(t: NodeType)
    ensures FromString(ToString(t)) == Some(t)
  {
  }

  /** The three role names are pairwise distinct. */
  lemma RoleNamesDistinct(a: NodeType, b: NodeType)
    requires ToString(a) == ToString(b)
    ensures a == b
  {
    RoleNameRoundTrip(a);
    RoleNameRoundTrip(b);
  }

  /** Only the three role names parse, and each parses to the role it names. */
  lemma FromStringOnlyRoleNames(s: string)
    ensures FromString(s).Some? ==> ToString(FromString(s).value) == s
    ensures FromString(s).None? <==> (forall t: NodeType :: ToString(t) != s)
  {
    if FromString(s).None? {
      forall t: NodeType
        ensures ToString(t) != s
      {
        RoleNameRoundTrip(t);
      }
    }
  }

  /** The role lattice: distributing implies providing, and everyone consumes. */
  lemma RoleCapabilities(t: NodeType)
    ensures CanProvide(t) <==> t != Consumer
    ensures CanDistribute(t) ==> CanProvide(t)
    ensures CanConsume(t)
    ensures CanProvide(t) && !CanDistribute(t) <==> t == Provider
  {
  }

  /** The stored record: peer id, listening address and role, if one was chosen. */
  datatype PeerInfo = PeerInfo(peerId: string, listeningAddr: string, nodeType: Option<NodeType>)

  /** What `peer_info.json` holds: no file, content that is not a record, or a record. */
  datatype StoredFile = Absent | Malformed | Json(info: PeerInfo)

  /** `load_peer_info`: a missing or unreadable file reads as no record. */
  function LoadPeerInfo(f: StoredFile): (r: Option<PeerInfo>)
    ensures r.Some? <==> f.Json?
  {
    match f
    case Json(info) => Some(info)
    case _ => None
  }

  /** `save_node_type`: set the role and keep the stored id and address, which default to
      empty strings when no record could be loaded. */
  function SaveNodeType(f: StoredFile, t: NodeType): (g: StoredFile)
    ensures g.Json? && g.info.nodeType == Some(t)
    ensures f.Json? ==> g.info.peerId == f.info.peerId && g.info.listeningAddr == f.info.listeningAddr
    ensures !f.Json? ==> g.info.peerId == "" && g.info.listeningAddr == ""
  {
    var info := match LoadPeerInfo(f)
      case Some(i) => i
      case None => PeerInfo("", "", None);
    Json(info.(nodeType := Some(t)))
  }

  /** `save_peer_info`: overwrite id and address and keep any stored role. */
  function SavePeerInfo(f: StoredFile, peerId: string, listeningAddr: string): (g: StoredFile)
    ensures g.Json? && g.info.peerId == peerId && g.info.listeningAddr == listeningAddr
    ensures g.info.nodeType == (if f.Json? then f.info.nodeType else None)
  {
    var info := match LoadPeerInfo(f)
      case Some(i) => i
      case None => PeerInfo(peerId, listeningAddr, None);
    Json(info.(peerId := peerId, listeningAddr := listeningAddr))
  }

  /** Stand-in for the error of opening the file when it does not exist; the model
      promises that an error occurs, not the text the operating system gives it. */
  const FileNotFound := "No such file or directory (os error 2)"

  /** Stand-in for the JSON parser's error on content that is not a record; only the
      occurrence of the error is modelled, not its text. */
  const NotARecord := "invalid peer_info.json content"

  /** `set_node_type`: like `save_node_type`, except that a missing or malformed file is
      an error and the file is left as it is. */
  function SetNodeType(f: StoredFile, t: NodeType): (r: Result<StoredFile>)
    ensures r.Ok? <==> f.Json?
    ensures r.Ok? ==> r.value == Json(f.info.(nodeType := Some(t)))
  {
    match f
    case Absent => Err(FileNotFound)
    case Malformed => Err(NotARecord)
    case Json(info) => Ok(Json(info.(nodeType := Some(t))))
  }

  /** `get_node_type`: the stored role, or an error when there is no record or no role. */
  function GetNodeType(f: StoredFile): (r: Result<NodeType>)
    ensures r.Ok? <==> f.Json? && f.info.nodeType.Some?
    ensures r.Ok? ==> r.value == f.info.nodeType.value
    ensures f.Json? && f.info.nodeType.None? ==> r == Err("Node type not set")
  {
    match f
    case Absent => Err(FileNotFound)
    case Malformed => Err(NotARecord)
    case Json(info) =>
      match info.nodeType
      case Some(t) => Ok(t)
      case None => Err("Node type not set")
  }

  /** A saved role is read back, whatever the file held before. */
  lemma SaveThenGetNodeType(f: StoredFile, t: NodeType)
    ensures GetNodeType(SaveNodeType(f, t)) == Ok(t)
    ensures SetNodeType(SaveNodeType(f, t), t) == Ok(SaveNodeType(f, t))
  {
  }

  /** Saving the peer record never changes the stored role. */
  lemma SavePeerInfoKeepsRole(f: StoredFile, peerId: string, addr: string)
    ensures f.Json? ==> GetNodeType(SavePeerInfo(f, peerId, addr)) == GetNodeType(f)
  {
  }

  /** The two saves touch disjoint fields, so their order does not matter. */
  lemma {:induction false} SavesCommute(f: StoredFile, t: NodeType, peerId: string, addr: string)
    ensures SaveNodeType(SavePeerInfo(f, peerId, addr), t) == SavePeerInfo(SaveNodeType(f, t), peerId, addr)
  {
    var g1 := SaveNodeType(SavePeerInfo(f, peerId, addr), t);
    var g2 := SavePeerInfo(SaveNodeType(f, t), peerId, addr);
    assert g1.info == g2.info;
  }

  /** Saving is idempotent. */
  lemma SavesIdempotent(f: StoredFile, t: NodeType, peerId: string, addr: string)
    ensures SaveNodeType(SaveNodeType(f, t), t) == SaveNodeType(f, t)
    ensures SavePeerInfo(SavePeerInfo(f, peerId, addr), peerId, addr) == SavePeerInfo(f, peerId, addr)
  {
  }
}
