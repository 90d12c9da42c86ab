/** What a change of the group lists changes, and what the lists mean for whole runs. */
module LadderLaws {
  import opened Prelude
  import opened PortSeats
  import opened AccessLadder
  import opened ProtocolCases
  import opened ProtocolSafety
  import opened ProtocolAgreement
  import opened ProtocolEntitlement

  function WithReadOnly(pc: PortConfig, g: string): PortConfig { pc.(readOnlyGroups := pc.readOnlyGroups + {g}) }

  function WithReadWrite(pc: PortConfig, g: string): PortConfig { pc.(readWriteGroups := pc.readWriteGroups + {g}) }

  predicate HasLists(pc: PortConfig) { pc.readWriteGroups != {} || pc.readOnlyGroups != {} }

  lemma OneMoreGroup(cfg: Config, u: Username, groups: set<string>, g: string)
    ensures BelongsToOne(cfg, u, groups + {g}) <==> BelongsToOne(cfg, u, groups) || Belongs(cfg, u, g)
  {
    if BelongsToOne(cfg, u, groups) {
      var h :| h in groups && Belongs(cfg, u, h);
      assert h in groups + {g};
    }
    if Belongs(cfg, u, g) {
      assert g in groups + {g};
    }
  }

  // Listing a group as read-only never lets anyone drive who could not before. Its members may watch;
  // whoever else could watch still can only if the port had lists already.
  lemma ReadOnlyGroupSeatsNobody(cfg: Config, pc: PortConfig, permissions: string, u: Username, g: string)
    requires permissions != "admin"
    ensures var before, after := TakerEntitled(cfg, Some(pc), permissions, u),
                                 TakerEntitled(cfg, Some(WithReadOnly(pc, g)), permissions, u);
      && (after.MayWrite? <==> HasLists(pc) && before.MayWrite?)
      && (!after.Denied? <==> Belongs(cfg, u, g) || (HasLists(pc) && !before.Denied?))
  {
    OneMoreGroup(cfg, u, pc.readOnlyGroups, g);
    assert g in WithReadOnly(pc, g).readOnlyGroups;
  }

  // Listing a group as read-write lets exactly its members drive, beside those who could by the lists.
  lemma ReadWriteGroupSeatsItsMembers(cfg: Config, pc: PortConfig, permissions: string, u: Username, g: string)
    requires permissions != "admin"
    ensures var before, after := TakerEntitled(cfg, Some(pc), permissions, u),
                                 TakerEntitled(cfg, Some(WithReadWrite(pc, g)), permissions, u);
      && (after.MayWrite? <==> Belongs(cfg, u, g) || (HasLists(pc) && before.MayWrite?))
      && (!after.Denied? <==> Belongs(cfg, u, g) || (HasLists(pc) && !before.Denied?))
  {
    OneMoreGroup(cfg, u, pc.readWriteGroups, g);
    assert g in WithReadWrite(pc, g).readWriteGroups;
  }

  // "user" stands for every known identity.
  lemma UserGroupIsEveryone(cfg: Config, pc: PortConfig, permissions: string, u: Username)
    requires u in cfg.permissions
    ensures "user" in pc.readWriteGroups ==> TakerEntitled(cfg, Some(pc), permissions, u).MayWrite?
    ensures "user" in pc.readOnlyGroups ==> !TakerEntitled(cfg, Some(pc), permissions, u).Denied?
  {
    assert Belongs(cfg, u, "user");
  }

  // On a port with lists the role of anyone but an admin counts for nothing; on one without, groups do.
  lemma ListsOverrideRoles(cfg: Config, pc: PortConfig, role: string, other: string, u: Username, v: Username)
    requires role != "admin" && other != "admin"
    ensures HasLists(pc) ==> TakerEntitled(cfg, Some(pc), role, u) == TakerEntitled(cfg, Some(pc), other, u)
    ensures !HasLists(pc) ==> TakerEntitled(cfg, Some(pc), role, u) == TakerEntitled(cfg, Some(pc), role, v)
  {
  }

  // Over every run with any overlap of requests: on a local port with group lists nobody drives but
  // admins and members of a read-write group, and on one without lists nobody but admins and, unless
  // the server denies by default, users whose role is read-write.
  lemma WritersByTheLists(cfg: Config, run: seq<Input>, c: ClientId, p: PortName)
    requires NamedClients(cfg) && ValidRun(cfg, Initial(cfg), run) && Local(cfg, p)
    requires Drives(After(cfg, Initial(cfg), run).world.Port(p), c)
    ensures c in cfg.clients && cfg.clients[c] in cfg.permissions
    ensures var u, pc := cfg.clients[c], cfg.ports[p];
      cfg.permissions[u] != "admin" ==>
        if HasLists(pc) then exists g :: g in pc.readWriteGroups && Belongs(cfg, u, g)
        else cfg.permissions[u] == "read-write" && cfg.accessDefault != Some("deny")
  {
    LocalWritersAreEntitled(cfg, run, c, p);
  }
}
