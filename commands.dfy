/** The administrative commands the pulse handler sends to the Minecraft server, and the effect
    each is taken to have on the server's own state (its whitelist, the LuckPerms group of each
    user, and the set of operators). The handler never reads that state back, so the effect below
    is the contract it relies on from the server, not something the repository implements. */
module Commands {

  datatype Command =
    | WhitelistAdd(name: string)
    | WhitelistRemove(name: string)
    | SetGroup(name: string, group: string)
    | Op(name: string)

  datatype ServerState = ServerState(whitelist: set<string>, groups: map<string, string>, ops: set<string>)

  /** The effect of one command on the server. */
  function Apply(s: ServerState, c: Command): (r: ServerState)
    ensures c.WhitelistAdd? ==> c.name in r.whitelist
    ensures c.WhitelistRemove? ==> c.name !in r.whitelist
    ensures !c.WhitelistAdd? && !c.WhitelistRemove? ==> r.whitelist == s.whitelist
    ensures forall n :: n != c.name ==> (n in r.whitelist <==> n in s.whitelist)
    ensures c.SetGroup? ==> c.name in r.groups && r.groups[c.name] == c.group
    ensures forall n :: n != c.name || !c.SetGroup? ==>
              (n in r.groups <==> n in s.groups) && (n in s.groups ==> r.groups[n] == s.groups[n])
    ensures r.ops == if c.Op? then s.ops + {c.name} else s.ops
  {
    match c
    case WhitelistAdd(n) => s.(whitelist := s.whitelist + {n})
    case WhitelistRemove(n) => s.(whitelist := s.whitelist - {n})
    case SetGroup(n, g) => s.(groups := s.groups[n := g])
    case Op(n) => s.(ops := s.ops + {n})
  }

  /** The effect of a command list applied in order. */
  function ApplyAll(s: ServerState, cmds: seq<Command>): ServerState
    decreases |cmds|
  {
    if cmds == [] then s else ApplyAll(Apply(s, cmds[0]), cmds[1..])
  }

  /** A summary of what a command list writes: for each name whether it was last added to or
      removed from the whitelist, the last group set for it, and which names were made operator. */
  datatype Patch = Patch(listed: map<string, bool>, groups: map<string, string>, ops: set<string>)

  const NoPatch := Patch(map[], map[], {})

  /** The state after writing a patch over `s`: later writes win. */
  function Overwrite(s: ServerState, p: Patch): ServerState {
    ServerState(
      (s.whitelist - p.listed.Keys) + (set n | n in p.listed && p.listed[n]),
      s.groups + p.groups,
      s.ops + p.ops)
  }

  /** Writing `p` and then `q`. */
  function Then(p: Patch, q: Patch): Patch {
    Patch(p.listed + q.listed, p.groups + q.groups, p.ops + q.ops)
  }

  function PatchOf(c: Command): Patch {
    match c
    case WhitelistAdd(n) => Patch(map[n := true], map[], {})
    case WhitelistRemove(n) => Patch(map[n := false], map[], {})
    case SetGroup(n, g) => Patch(map[], map[n := g], {})
    case Op(n) => Patch(map[], map[], {n})
  }

  function PatchAll(cmds: seq<Command>): Patch
    decreases |cmds|
  {
    if cmds == [] then NoPatch else Then(PatchOf(cmds[0]), PatchAll(cmds[1..]))
  }

  lemma OverwriteOne(s: ServerState, c: Command)
    ensures Overwrite(s, PatchOf(c)) == Apply(s, c)
  {
    var o := Overwrite(s, PatchOf(c));
    match c
    case WhitelistAdd(n) =>
      assert o.whitelist == s.whitelist + {n};
      assert o.groups == s.groups;
    case WhitelistRemove(n) =>
      assert o.whitelist == s.whitelist - {n};
      assert o.groups == s.groups;
    case SetGroup(n, g) =>
      assert o.whitelist == s.whitelist;
      assert o.groups == s.groups[n := g];
    case Op(n) =>
      assert o.whitelist == s.whitelist;
      assert o.groups == s.groups;
  }

  lemma OverwriteThen(s: ServerState, p: Patch, q: Patch)
    ensures Overwrite(Overwrite(s, p), q) == Overwrite(s, Then(p, q))
  {
    var lhs := Overwrite(Overwrite(s, p), q);
    var rhs := Overwrite(s, Then(p, q));
    assert lhs.whitelist == rhs.whitelist;
    assert lhs.groups == rhs.groups;
  }

  lemma {:induction false} ApplyAllIsOverwrite(s: ServerState, cmds: seq<Command>)
    ensures ApplyAll(s, cmds) == Overwrite(s, PatchAll(cmds))
    decreases |cmds|
  {
    if cmds == [] {
      var o := Overwrite(s, NoPatch);
      assert o.whitelist == s.whitelist;
      assert o.groups == s.groups;
    } else {
      ApplyAllIsOverwrite(Apply(s, cmds[0]), cmds[1..]);
      OverwriteOne(s, cmds[0]);
      OverwriteThen(s, PatchOf(cmds[0]), PatchAll(cmds[1..]));
    }
  }

  /** Sending the same command list a second time changes nothing: every command either sets a
      whitelist bit, sets a group or adds an operator, and the last write to each name wins. */
  lemma ReplayIsIdempotent(s: ServerState, cmds: seq<Command>)
    ensures ApplyAll(ApplyAll(s, cmds), cmds) == ApplyAll(s, cmds)
  {
    var p := PatchAll(cmds);
    ApplyAllIsOverwrite(s, cmds);
    ApplyAllIsOverwrite(Overwrite(s, p), cmds);
    OverwriteThen(s, p, p);
    assert Then(p, p) == p;
  }
}
