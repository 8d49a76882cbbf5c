/** The records the dashboard keeps in its store and sends to its proxies. */
module Models {
  const MAX_SLOT_NUM: nat := 1024
  const MAX_GROUP_ID: int := 9999

  type Token = string
  /** A server address; the empty string stands for "no server". */
  type Addr = string

  datatype ActionState = Nothing | Pending | Preparing | Prepared | Migrating | Finished

  datatype Action = Action(index: int, state: ActionState, target: int)

  const NO_ACTION := Action(0, Nothing, 0)

  datatype SlotMapping = SlotMapping(gid: int, action: Action)

  const OFFLINE := SlotMapping(0, NO_ACTION)

  datatype Server = Server(addr: Addr, replica: bool)

  datatype PromoteState = Unpromoted | PromotePreparing | PromotePrepared | PromoteFinished

  datatype Promoting = Promoting(index: int, state: PromoteState)

  const NO_PROMOTION := Promoting(0, Unpromoted)

  datatype Group = Group(servers: seq<Server>, promoting: Promoting, outOfSync: bool)

  datatype Proxy = Proxy(id: int)

  /** What one proxy does with one slot. */
  datatype Route = Route(locked: bool, backend: Addr, migrateFrom: Addr)

  /** A slot nobody has filled yet: unlocked, but every request is refused. */
  const EMPTY_ROUTE := Route(false, "", "")

  datatype Option<+T> = None | Some(value: T)

  /** Go's map iteration order is arbitrary. */
  method AnyOf<T>(s: set<T>) returns (x: T)
    requires s != {}
    ensures x in s
  {
    x :| x in s;
  }
}
