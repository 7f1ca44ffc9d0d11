/**
 What a claimed row asks for: the classification of actions in
 `internal/proxmox/actions.go` and the validation and routing steps of the two
 `Handle` functions in `internal/commands`.
 */
module Routing {
  import opened Common
  import Whitelist
  import Query

  // ----- actions -----

  predicate IsPowerAction(kind: string) {
    kind in ["start", "stop", "reboot", "shutdown", "suspend", "resume"]
  }

  predicate IsSnapshotAction(kind: string) {
    kind in ["snapshot.create", "snapshot.delete", "snapshot.rollback"]
  }

  predicate IsCreateAction(kind: string) {
    kind in ["vm.create", "lxc.create"]
  }

  predicate IsKnown(kind: string) {
    IsPowerAction(kind) || IsSnapshotAction(kind) || IsCreateAction(kind) || kind == "guest.delete"
  }

  predicate IsLetter(c: char) { 'a' <= c <= 'z' || 'A' <= c <= 'Z' }

  /** ^[a-zA-Z][a-zA-Z0-9_-]{1,39}$ */
  predicate SnapshotName(s: string) {
    && 2 <= |s| <= 40 && IsLetter(s[0])
    && forall i :: 0 < i < |s| ==> IsLetter(s[i]) || IsDigit(s[i]) || s[i] == '_' || s[i] == '-'
  }

  // ----- rows -----

  /** password_enc: not set, or set to a text that opens under the agent's key or does not. */
  datatype Sealed = NotSealed | Sealed(plaintext: Option<string>)

  datatype Payload =
    | Malformed
    | Payload(guestKind: string, node: string, vmid: int, name: string, passwordEnc: Sealed, password: string)

  datatype Cmd =
    | Write(kind: string, payload: Payload)
    | Read(endpoint: string, params: Query.Params)

  datatype Guest = Guest(kind: string, node: string, vmid: int)

  /** One call on Proxmox. */
  datatype Call =
    | PerformAction(guest: Guest, action: string)
    | CreateSnapshot(guest: Guest, name: string)
    | DeleteSnapshot(guest: Guest, name: string)
    | RollbackSnapshot(guest: Guest, name: string)
    | DeleteGuest(guest: Guest)
    | CreateVM(node: string, vmid: int, name: string)
    | CreateLXC(node: string, vmid: int, rootPassword: string)
    | GetRaw(endpoint: string, params: Query.Params)

  datatype Reason =
    | UnknownKind | BadPayload | UnknownGuestKind | MissingNodeOrVmid
    | BadSnapshotName | BadPassword | EndpointNotAllowed | BadParams
    | UnroutedSnapshot | UnroutedCreate | UnroutedKind

  datatype Plan = Reject(reason: Reason) | Invoke(call: Call)

  function ResolvePassword(hasKey: bool, p: Payload): Option<string>
    requires p.Payload?
  {
    if p.passwordEnc.Sealed? then
      if !hasKey then None else p.passwordEnc.plaintext
    else if p.password != "" then Some(p.password)
    else None
  }

  /** The validation and the routing switch of Dispatcher.Handle. */
  function RouteWrite(kind: string, payload: Payload, hasKey: bool): Plan {
    if !IsKnown(kind) then Reject(UnknownKind)
    else if payload.Malformed? then Reject(BadPayload)
    else if payload.guestKind != "qemu" && payload.guestKind != "lxc" then Reject(UnknownGuestKind)
    else if payload.node == "" || payload.vmid <= 0 then Reject(MissingNodeOrVmid)
    else
      var guest := Guest(payload.guestKind, payload.node, payload.vmid);
      if IsPowerAction(kind) then Invoke(PerformAction(guest, kind))
      else if IsSnapshotAction(kind) then
        if !SnapshotName(payload.name) then Reject(BadSnapshotName)
        else if kind == "snapshot.create" then Invoke(CreateSnapshot(guest, payload.name))
        else if kind == "snapshot.delete" then Invoke(DeleteSnapshot(guest, payload.name))
        else if kind == "snapshot.rollback" then Invoke(RollbackSnapshot(guest, payload.name))
        else Reject(UnroutedSnapshot)
      else if kind == "guest.delete" then Invoke(DeleteGuest(guest))
      else if IsCreateAction(kind) then
        if kind == "vm.create" then Invoke(CreateVM(payload.node, payload.vmid, payload.name))
        else if kind == "lxc.create" then
          match ResolvePassword(hasKey, payload)
          case None => Reject(BadPassword)
          case Some(pw) => Invoke(CreateLXC(payload.node, payload.vmid, pw))
        else Reject(UnroutedCreate)
      else Reject(UnroutedKind)
  }

  /** Whitelist and params check of ReadDispatcher.Handle. */
  function RouteRead(endpoint: string, params: Query.Params): Plan {
    if !Whitelist.Classify(Whitelist.Split(endpoint)) then Reject(EndpointNotAllowed)
    else if params.NotAnObject? || (params.Object? && !Query.Flat(params.fields)) then Reject(BadParams)
    else Invoke(GetRaw(endpoint, params))
  }

  function Route(cmd: Cmd, hasKey: bool): Plan {
    match cmd
    case Write(kind, payload) => RouteWrite(kind, payload, hasKey)
    case Read(endpoint, params) => RouteRead(endpoint, params)
  }

  // ----- what routing means, stated without the switch -----

  /** The Proxmox method each action name stands for, as a table. */
  predicate Performs(kind: string, c: Call) {
    match c
    case PerformAction(_, action) =>
      action == kind && kind in ["start", "stop", "reboot", "shutdown", "suspend", "resume"]
    case CreateSnapshot(_, _) => kind == "snapshot.create"
    case DeleteSnapshot(_, _) => kind == "snapshot.delete"
    case RollbackSnapshot(_, _) => kind == "snapshot.rollback"
    case DeleteGuest(_) => kind == "guest.delete"
    case CreateVM(_, _, _) => kind == "vm.create"
    case CreateLXC(_, _, _) => kind == "lxc.create"
    case GetRaw(_, _) => false
  }

  /**
   The password of a new container: a sealed one must open under the agent's
   key, a plain one counts only without a sealed one.
   */
  predicate PasswordIs(p: Payload, hasKey: bool, pw: string)
    requires p.Payload?
  {
    if p.passwordEnc.NotSealed? then pw != "" && p.password == pw
    else hasKey && p.passwordEnc.plaintext == Some(pw)
  }

  /** The call names the guest, snapshot and password the payload gives. */
  predicate Targets(p: Payload, hasKey: bool, c: Call) {
    p.Payload? && p.guestKind in ["qemu", "lxc"] && p.node != "" && p.vmid > 0 &&
    match c
    case CreateVM(node, vmid, name) => node == p.node && vmid == p.vmid && name == p.name
    case CreateLXC(node, vmid, pw) => node == p.node && vmid == p.vmid && PasswordIs(p, hasKey, pw)
    case GetRaw(_, _) => false
    case PerformAction(g, _) => g == Guest(p.guestKind, p.node, p.vmid)
    case DeleteGuest(g) => g == Guest(p.guestKind, p.node, p.vmid)
    case _ => c.guest == Guest(p.guestKind, p.node, p.vmid) && c.name == p.name && SnapshotName(p.name)
  }

  /** A write row is dispatched to exactly the call its action and payload stand for. */
  lemma RouteWriteExact(kind: string, p: Payload, hasKey: bool, c: Call)
    ensures RouteWrite(kind, p, hasKey) == Invoke(c) <==> Performs(kind, c) && Targets(p, hasKey, c)
  {
    match c {
      case PerformAction(_, _) =>
      case _ =>
    }
  }

  const LOWER: string := "abcdefghijklmnopqrstuvwxyz"
  const UPPER: string := "ABCDEFGHIJKLMNOPQRSTUVWXYZ"

  /** A snapshot name: a letter, then 1 to 39 letters, digits, underscores and hyphens, and nothing else. */
  lemma SnapshotNameExact(name: string)
    ensures SnapshotName(name) <==>
              && 2 <= |name| <= 40 && (name[0] in LOWER || name[0] in UPPER)
              && forall i :: 0 < i < |name| ==>
                   name[i] in LOWER || name[i] in UPPER || name[i] in "0123456789" || name[i] in "_-"
  {
    forall i | 0 <= i < |name|
      ensures IsLetter(name[i]) <==> name[i] in LOWER || name[i] in UPPER
      ensures IsDigit(name[i]) <==> name[i] in "0123456789"
    {
      LowerAre(name[i]);
      UpperAre(name[i]);
      DigitsAre(name[i]);
    }
  }

  lemma DigitsAre(c: char)
    ensures c in "0123456789" <==> IsDigit(c)
  {
  }

  lemma LowerAre(c: char)
    ensures c in LOWER <==> 'a' <= c <= 'z'
  {
    if 'a' <= c <= 'z' { assert LOWER[(c - 'a') as int] == c; }
  }

  lemma UpperAre(c: char)
    ensures c in UPPER <==> 'A' <= c <= 'Z'
  {
    if 'A' <= c <= 'Z' { assert UPPER[(c - 'A') as int] == c; }
  }

  /**
   What each of the twelve action names does with a payload that names a guest;
   every other name is unknown.
   */
  lemma RouteByName(kind: string, p: Payload, hasKey: bool)
    requires p.Payload? && p.guestKind in ["qemu", "lxc"] && p.node != "" && p.vmid > 0
    ensures var guest, plan := Guest(p.guestKind, p.node, p.vmid), RouteWrite(kind, p, hasKey);
            && (plan == Invoke(PerformAction(guest, kind)) <==>
                  kind in ["start", "stop", "reboot", "shutdown", "suspend", "resume"])
            && (plan == Invoke(CreateSnapshot(guest, p.name)) <==> kind == "snapshot.create" && SnapshotName(p.name))
            && (plan == Invoke(DeleteSnapshot(guest, p.name)) <==> kind == "snapshot.delete" && SnapshotName(p.name))
            && (plan == Invoke(RollbackSnapshot(guest, p.name)) <==>
                  kind == "snapshot.rollback" && SnapshotName(p.name))
            && (plan == Invoke(DeleteGuest(guest)) <==> kind == "guest.delete")
            && (plan == Invoke(CreateVM(p.node, p.vmid, p.name)) <==> kind == "vm.create")
            && (forall pw :: plan == Invoke(CreateLXC(p.node, p.vmid, pw)) <==>
                  && kind == "lxc.create"
                  && if p.passwordEnc.NotSealed? then pw != "" && p.password == pw
                     else hasKey && p.passwordEnc.plaintext == Some(pw))
  {
  }

  const ACTIONS: seq<string> :=
    ["start", "stop", "reboot", "shutdown", "suspend", "resume", "snapshot.create", "snapshot.delete",
     "snapshot.rollback", "vm.create", "lxc.create", "guest.delete"]

  /** Which error a row that is not dispatched gets: the first check, in the order of the code, that it fails. */
  lemma RejectReasons(kind: string, p: Payload, hasKey: bool)
    ensures var plan := RouteWrite(kind, p, hasKey);
            var named := p.Payload? && p.guestKind in ["qemu", "lxc"] && p.node != "" && p.vmid > 0;
            && (plan == Reject(UnknownKind) <==> kind !in ACTIONS)
            && (plan == Reject(BadPayload) <==> kind in ACTIONS && p.Malformed?)
            && (plan == Reject(UnknownGuestKind) <==>
                  kind in ACTIONS && p.Payload? && p.guestKind != "qemu" && p.guestKind != "lxc")
            && (plan == Reject(MissingNodeOrVmid) <==>
                  kind in ACTIONS && p.Payload? && p.guestKind in ["qemu", "lxc"] && (p.node == "" || p.vmid <= 0))
            && (plan == Reject(BadSnapshotName) <==>
                  && named && !SnapshotName(p.name)
                  && kind in ["snapshot.create", "snapshot.delete", "snapshot.rollback"])
            && (plan == Reject(BadPassword) <==>
                  && named && kind == "lxc.create"
                  && if p.passwordEnc.NotSealed? then p.password == ""
                     else !hasKey || p.passwordEnc.plaintext == None)
  {
  }

  /** The three "unrouted" branches of the switch are never taken. */
  lemma NeverUnrouted(cmd: Cmd, hasKey: bool)
    ensures Route(cmd, hasKey) !in [Reject(UnroutedSnapshot), Reject(UnroutedCreate), Reject(UnroutedKind)]
  {
  }

  /**
   A read row is dispatched exactly if one of the whitelist's expressions
   accepts its endpoint and its params are flat.
   */
  lemma RouteReadExact(endpoint: string, params: Query.Params)
    ensures RouteRead(endpoint, params).Invoke? <==>
            && (exists i ::
                  && 0 <= i < |Whitelist.WHITELIST|
                  && Whitelist.Accepts(Whitelist.Regex(Whitelist.WHITELIST[i]), endpoint))
            && !params.NotAnObject? && (params.Object? ==> Query.Flat(params.fields))
  {
    Whitelist.WhitelistIsClassifier(endpoint);
  }
}
