/** Who may drive or watch a port: the access ladder of `ConsoleManager`. */
module AccessLadder {
  import opened Prelude
  import opened AccessControl
  import opened PortSeats
  import opened AccessDecision

  type PortName = string

  // What stays fixed during a run. `permissions` holds exactly the identities
  // with a role; `adapterNames` is what an adapter reports about a session.
  datatype Config = Config(
    ports: map<PortName, PortConfig>,
    permissions: map<Username, string>,
    groups: map<Username, set<string>>,
    accessDefault: Option<string>,
    clients: map<ClientId, Username>,
    adapterNames: map<ClientId, Username>)
  {
    function Port(p: PortName): Option<PortConfig> { if p in ports then Some(ports[p]) else None }

    function UserGroups(u: Username): set<string> {
      if u !in permissions then {}
      else {"user"} + (if u in groups then groups[u] else {})
    }
  }

  datatype Entitlement = MayWrite | MayRead | Denied(code: Code)

  predicate DefaultDenies(cfg: Config) { cfg.accessDefault == Some("deny") }

  // ------------------------------------------------- what the configuration says

  // Every known identity is in the group "user", whatever groups it is given.
  predicate Belongs(cfg: Config, u: Username, g: string) {
    u in cfg.permissions && (g == "user" || (u in cfg.groups && g in cfg.groups[u]))
  }

  predicate BelongsToOne(cfg: Config, u: Username, groups: set<string>) {
    exists g :: g in groups && Belongs(cfg, u, g)
  }

  predicate ListsGroups(port: Option<PortConfig>) {
    port.Some? && (port.value.readWriteGroups != {} || port.value.readOnlyGroups != {})
  }

  // An admin; on a port with group lists, a member of a read-write group, whatever its role; on any
  // other, the role "read-write" unless the server denies by default.
  predicate MayDriveAs(cfg: Config, port: Option<PortConfig>, permissions: string, u: Username) {
    || permissions == "admin"
    || (if ListsGroups(port) then BelongsToOne(cfg, u, port.value.readWriteGroups)
        else cfg.accessDefault != Some("deny") && permissions == "read-write")
  }

  // An admin; a member of any listed group; without lists everyone, unless the server denies by default.
  predicate MayWatchAs(cfg: Config, port: Option<PortConfig>, permissions: string, u: Username) {
    || permissions == "admin"
    || (if ListsGroups(port) then
          BelongsToOne(cfg, u, port.value.readWriteGroups) || BelongsToOne(cfg, u, port.value.readOnlyGroups)
        else cfg.accessDefault != Some("deny"))
  }

  // ------------------------------------------------------------------ the ladder

  // The ladder says what the configuration says, and a denial names the rule that denies.
  function TakerEntitled(cfg: Config, port: Option<PortConfig>, permissions: string, u: Username): (e: Entitlement)
    ensures e.MayWrite? <==> MayDriveAs(cfg, port, permissions, u)
    ensures e.Denied? <==> !MayWatchAs(cfg, port, permissions, u)
    ensures e.Denied? ==> e.code == if ListsGroups(port) then DeniedByGroupAcl else DeniedByAccessDefault
  {
    assert forall groups: set<string> :: cfg.UserGroups(u) * groups != {} <==> BelongsToOne(cfg, u, groups) by {
      CommonGroup(cfg, u);
    }
    var rw := if port.Some? then port.value.readWriteGroups else {};
    var ro := if port.Some? then port.value.readOnlyGroups else {};
    if permissions == "admin" then MayWrite
    else if rw != {} || ro != {} then
      if cfg.UserGroups(u) * rw != {} then MayWrite
      else if cfg.UserGroups(u) * ro != {} then MayRead
      else Denied(DeniedByGroupAcl)
    else if DefaultDenies(cfg) then Denied(DeniedByAccessDefault)
    else if permissions == "read-write" then MayWrite
    else MayRead
  }

  // A known user who may drive the port.
  predicate MayDrive(cfg: Config, p: PortName, u: Username) {
    u in cfg.permissions && MayDriveAs(cfg, cfg.Port(p), cfg.permissions[u], u)
  }

  lemma CommonGroup(cfg: Config, u: Username)
    ensures forall groups: set<string> :: cfg.UserGroups(u) * groups != {} <==> BelongsToOne(cfg, u, groups)
  {
    forall groups: set<string> ensures cfg.UserGroups(u) * groups != {} <==> BelongsToOne(cfg, u, groups) {
      var common := cfg.UserGroups(u) * groups;
      if common != {} {
        var g :| g in common;
        assert g in groups && Belongs(cfg, u, g);
      }
      if BelongsToOne(cfg, u, groups) {
        var g :| g in groups && Belongs(cfg, u, g);
        assert g in common;
      }
    }
  }

  predicate HasWriteSlots(port: Option<PortConfig>, ps: PortState) {
    port.Some? && !port.value.Capacity().Full(Writers(ps.records))
  }

  // The code of an attach and the mode that goes with it.
  function ResolveAccessMode(cfg: Config, port: Option<PortConfig>, ps: PortState, permissions: string, u: Username)
    : (r: (Code, Mode))
    ensures r.1.ReadWrite? ==> r.0.AttachedCode?
    ensures !KindOf(r.0).Notice?
    ensures Ok(r.0) || KindOf(r.0).Refusal?
  {
    match TakerEntitled(cfg, port, permissions, u)
    case Denied(code) => (code, ReadOnly)
    case MayRead => (ReadOnlyStanding, ReadOnly)
    case MayWrite =>
      if HasWriteSlots(port, ps) then (AttachedCode, ReadWrite)
      else if port.Some? && port.value.Capacity() == Finite(0) then (CapacityNone, ReadOnly)
      else (CapacityFull, ReadOnly)
  }
}
