/** The change-event handler for Minecraft account records: each create, update or delete event
    from the record store's change stream becomes an ordered list of server commands. */
module PulseHandler {
  import opened Wrappers
  import opened Commands

  /** The fields of a Minecraft account record the handler reads (it uses only `name`). */
  datatype Minecraft = Minecraft(minecraftId: string, name: string)

  /** A change event. The record store's type gives an update event an optional `before`. */
  datatype PulseEvent =
    | CreateEvent(created: Minecraft)
    | UpdateEvent(before: Option<Minecraft>, after: Minecraft)
    | DeleteEvent(deleted: Minecraft)

  /** Reading `event.before.name` when `before` is absent throws a TypeError. */
  datatype HandlerError = BeforeMissing

  /** The player who is made operator on creation. */
  const AdminName: string := "FitzZero"

  /** The only permission group the handler assigns. */
  const DefaultGroup: string := "default"

  function HandleCreate(created: Minecraft): (cmds: seq<Command>)
    ensures |cmds| >= 2
    ensures cmds[..2] == [WhitelistAdd(created.name), SetGroup(created.name, DefaultGroup)]
    ensures cmds[2..] == [] <==> created.name != AdminName
    ensures created.name == AdminName ==> cmds[2..] == [Op(created.name)]
  {
    [WhitelistAdd(created.name), SetGroup(created.name, DefaultGroup)]
      + (if created.name == AdminName then [Op(created.name)] else [])
  }

  function HandleUpdate(before: Option<Minecraft>, after: Minecraft): (r: Result<seq<Command>, HandlerError>)
    ensures before.None? ==> r == Failure(BeforeMissing)
    ensures before.Some? ==> r == Success([WhitelistRemove(before.value.name), WhitelistAdd(after.name), SetGroup(after.name, DefaultGroup)])
    ensures r.Success? ==> forall c :: c in r.value ==> !c.Op?
  {
    match before
    case None => Failure(BeforeMissing)
    case Some(b) => Success([WhitelistRemove(b.name), WhitelistAdd(after.name), SetGroup(after.name, DefaultGroup)])
  }

  function HandleDelete(deleted: Minecraft): (cmds: seq<Command>)
    ensures cmds == [WhitelistRemove(deleted.name)]
    ensures forall c :: c in cmds ==> c.WhitelistRemove?
  {
    [WhitelistRemove(deleted.name)]
  }

  /** The names an event carries. */
  function EventNames(event: PulseEvent): set<string> {
    match event
    case CreateEvent(m) => {m.name}
    case UpdateEvent(b, a) => (if b.Some? then {b.value.name} else {}) + {a.name}
    case DeleteEvent(m) => {m.name}
  }

  /** The dispatch on `event.action`: one handler per kind of event. */
  function Handle(event: PulseEvent): (r: Result<seq<Command>, HandlerError>)
    ensures r.Failure? <==> event.UpdateEvent? && event.before.None?
    ensures r.Success? ==> forall c :: c in r.value ==> c.name in EventNames(event)
    ensures r.Success? ==> forall c :: c in r.value && c.SetGroup? ==> c.group == DefaultGroup
    ensures r.Success? ==>
              ((exists c :: c in r.value && c.Op?) <==> event.CreateEvent? && event.created.name == AdminName)
  {
    match event
    case CreateEvent(created) => Success(HandleCreate(created))
    case UpdateEvent(before, after) => HandleUpdate(before, after)
    case DeleteEvent(deleted) => Success(HandleDelete(deleted))
  }

  /** What the server state becomes once an event's commands are applied; a failed handler
      issues nothing. */
  function Effect(s: ServerState, event: PulseEvent): ServerState {
    match Handle(event)
    case Success(cmds) => ApplyAll(s, cmds)
    case Failure(_) => s
  }

  lemma CreateEffect(s: ServerState, created: Minecraft)
    ensures Effect(s, CreateEvent(created)) ==
      ServerState(
        s.whitelist + {created.name},
        s.groups[created.name := DefaultGroup],
        if created.name == AdminName then s.ops + {created.name} else s.ops)
  {
    var n := created.name;
    var s1 := Apply(s, WhitelistAdd(n));
    var s2 := Apply(s1, SetGroup(n, DefaultGroup));
    if n == AdminName {
      var cmds := [WhitelistAdd(n), SetGroup(n, DefaultGroup), Op(n)];
      assert HandleCreate(created) == cmds;
      assert ApplyAll(s, cmds) == ApplyAll(s1, cmds[1..]);
      assert ApplyAll(s1, cmds[1..]) == ApplyAll(s2, cmds[2..]);
      assert ApplyAll(s2, cmds[2..]) == Apply(s2, Op(n));
    } else {
      var cmds := [WhitelistAdd(n), SetGroup(n, DefaultGroup)];
      assert HandleCreate(created) == cmds;
      assert ApplyAll(s, cmds) == ApplyAll(s1, cmds[1..]);
      assert ApplyAll(s1, cmds[1..]) == s2;
    }
  }

  lemma UpdateEffect(s: ServerState, before: Minecraft, after: Minecraft)
    ensures Effect(s, UpdateEvent(Some(before), after)) ==
      ServerState(
        (s.whitelist - {before.name}) + {after.name},
        s.groups[after.name := DefaultGroup],
        s.ops)
  {
    var cmds := [WhitelistRemove(before.name), WhitelistAdd(after.name), SetGroup(after.name, DefaultGroup)];
    var s1 := Apply(s, cmds[0]);
    var s2 := Apply(s1, cmds[1]);
    assert ApplyAll(s, cmds) == ApplyAll(s1, cmds[1..]);
    assert ApplyAll(s1, cmds[1..]) == ApplyAll(s2, cmds[2..]);
    assert ApplyAll(s2, cmds[2..]) == Apply(s2, cmds[2]);
  }

  lemma DeleteEffect(s: ServerState, deleted: Minecraft)
    ensures Effect(s, DeleteEvent(deleted)) == s.(whitelist := s.whitelist - {deleted.name})
  {
    var cmds := [WhitelistRemove(deleted.name)];
    assert ApplyAll(s, cmds) == ApplyAll(Apply(s, cmds[0]), []);
  }

  /** An update whose `before` is absent leaves the server as it was: it is not treated as a create. */
  lemma MissingBeforeChangesNothing(s: ServerState, after: Minecraft)
    ensures Effect(s, UpdateEvent(None, after)) == s
    ensures Handle(UpdateEvent(None, after)) != Success(HandleCreate(after))
  {
  }

  /** Delivering the same event a second time leaves the server as the first delivery left it. */
  lemma RedeliveryIsIdempotent(s: ServerState, event: PulseEvent)
    ensures Effect(Effect(s, event), event) == Effect(s, event)
  {
    match Handle(event)
    case Success(cmds) => ReplayIsIdempotent(s, cmds);
    case Failure(_) =>
  }
}
