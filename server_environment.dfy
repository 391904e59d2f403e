// The graph of server environments (planets and ships): each environment keeps the
// environments connected to it with the transform between them and the bitset of the
// players registered in it; connecting and disconnecting make the players rooted in the
// other environment see (or stop seeing) this one.

module Environments {

  datatype ServerEnvironmentType = PlanetEnvironment | ShipEnvironment

  /** The placement of one environment in another (translation and rotation). */
  datatype EnvironmentTransform = EnvironmentTransform(translation: (real, real, real), rotation: (real, real, real, real))

  /** The part of a server player the environment graph updates: its root environment
      and the environments it is present in. */
  class ServerPlayer {
    const playerIndex: nat
    var rootEnvironment: ServerEnvironment?
    var environments: set<ServerEnvironment>

    constructor(index: nat, root: ServerEnvironment?)
      ensures playerIndex == index && rootEnvironment == root && environments == {}
    {
      playerIndex := index;
      rootEnvironment := root;
      environments := {};
    }

    method AddToEnvironment(environment: ServerEnvironment)
      modifies this`environments
      ensures environments == old(environments) + {environment}
    {
      environments := environments + {environment};
    }

    method RemoveFromEnvironment(environment: ServerEnvironment)
      modifies this`environments
      ensures environments == old(environments) - {environment}
    {
      environments := environments - {environment};
    }
  }

  /** The server instance's table of players by index. */
  class ServerInstance {
    var players: map<nat, ServerPlayer>

    constructor()
      ensures players == map[]
    {
      players := map[];
    }
  }

  /** A player's environments after `this` joined `joined` for the players rooted in
      `root`. */
  function Joined(envs: set<ServerEnvironment>, rootIsOther: bool, env: ServerEnvironment): (r: set<ServerEnvironment>)
    ensures env in r <==> env in envs || rootIsOther
    ensures r - {env} == envs - {env}
  {
    if rootIsOther then envs + {env} else envs
  }

  function Left(envs: set<ServerEnvironment>, rootIsOther: bool, env: ServerEnvironment): (r: set<ServerEnvironment>)
    ensures env in r <==> env in envs && !rootIsOther
    ensures r - {env} == envs - {env}
  {
    if rootIsOther then envs - {env} else envs
  }

  /** Leaving undoes joining for a player that was not already present. */
  lemma LeftAfterJoined(envs: set<ServerEnvironment>, rootIsOther: bool, env: ServerEnvironment)
    requires env !in envs
    ensures Left(Joined(envs, rootIsOther, env), rootIsOther, env) == envs
  {
  }

  /** The connection table after `Connect` and after `Disconnect`. */
  function Connected(m: map<ServerEnvironment, EnvironmentTransform>, env: ServerEnvironment, t: EnvironmentTransform): (r: map<ServerEnvironment, EnvironmentTransform>)
    ensures r.Keys == m.Keys + {env} && r[env] == t
    ensures forall e :: e in m && e != env ==> r[e] == m[e]
  {
    m[env := t]
  }

  function Disconnected(m: map<ServerEnvironment, EnvironmentTransform>, env: ServerEnvironment): (r: map<ServerEnvironment, EnvironmentTransform>)
    ensures r.Keys == m.Keys - {env}
    ensures forall e :: e in r ==> r[e] == m[e]
  {
    m - {env}
  }

  /** Disconnecting undoes connecting in the table of an unconnected environment. */
  lemma DisconnectedAfterConnected(m: map<ServerEnvironment, EnvironmentTransform>, env: ServerEnvironment, t: EnvironmentTransform)
    requires env !in m
    ensures Disconnected(Connected(m, env, t), env) == m
  {
  }

  class ServerEnvironment {
    const kind: ServerEnvironmentType
    const serverInstance: ServerInstance
    var connectedEnvironments: map<ServerEnvironment, EnvironmentTransform>
    /** The set bits of the registered-player bitset. */
    var registeredPlayers: set<nat>

    constructor(instance: ServerInstance, environmentType: ServerEnvironmentType)
      ensures kind == environmentType && serverInstance == instance
      ensures connectedEnvironments == map[] && registeredPlayers == {}
    {
      kind := environmentType;
      serverInstance := instance;
      connectedEnvironments := map[];
      registeredPlayers := {};
    }

    /** The players `ForEachPlayer` visits: those registered here, looked up in the
        server instance. */
    function Players(): set<ServerPlayer>
      reads this, serverInstance
    {
      set i | i in registeredPlayers && i in serverInstance.players :: serverInstance.players[i]
    }

    /** `Connect`: one new entry in this environment's table, and every player rooted
        in `environment` now also sees this one. `environment`'s own table is not
        touched. */
    method Connect(environment: ServerEnvironment, transform: EnvironmentTransform)
      requires environment !in connectedEnvironments
      modifies this`connectedEnvironments, environment.Players()`environments
      ensures connectedEnvironments == Connected(old(connectedEnvironments), environment, transform)
      ensures forall p :: p in old(environment.Players()) ==>
                p.environments == Joined(old(p.environments), p.rootEnvironment == environment, this)
    {
      connectedEnvironments := connectedEnvironments[environment := transform];
      JoinRootedPlayers(environment);
    }

    /** The player loop of `Connect`. */
    method JoinRootedPlayers(environment: ServerEnvironment)
      modifies environment.Players()`environments
      ensures forall p :: p in old(environment.Players()) ==>
                p.environments == Joined(old(p.environments), p.rootEnvironment == environment, this)
    {
      ghost var all := environment.Players();
      var todo := environment.Players();
      while todo != {}
        invariant todo <= all
        invariant forall p :: p in all ==>
                    p.environments == if p in todo then old(p.environments)
                                      else Joined(old(p.environments), p.rootEnvironment == environment, this)
        decreases todo
      {
        var player :| player in todo;
        if player.rootEnvironment == environment {
          player.AddToEnvironment(this);
        }
        todo := todo - {player};
      }
    }

    /** `Disconnect`: the entry for `environment` is erased, and the players rooted in
        `environment` stop seeing this one. */
    method Disconnect(environment: ServerEnvironment)
      requires environment in connectedEnvironments
      modifies this`connectedEnvironments, environment.Players()`environments
      ensures connectedEnvironments == Disconnected(old(connectedEnvironments), environment)
      ensures forall p :: p in old(environment.Players()) ==>
                p.environments == Left(old(p.environments), p.rootEnvironment == environment, this)
    {
      connectedEnvironments := connectedEnvironments - {environment};
      LeaveRootedPlayers(environment);
    }

    /** The player loop of `Disconnect`. */
    method LeaveRootedPlayers(environment: ServerEnvironment)
      modifies environment.Players()`environments
      ensures forall p :: p in old(environment.Players()) ==>
                p.environments == Left(old(p.environments), p.rootEnvironment == environment, this)
    {
      ghost var all := environment.Players();
      var todo := environment.Players();
      while todo != {}
        invariant todo <= all
        invariant forall p :: p in all ==>
                    p.environments == if p in todo then old(p.environments)
                                      else Left(old(p.environments), p.rootEnvironment == environment, this)
        decreases todo
      {
        var player :| player in todo;
        if player.rootEnvironment == environment {
          player.RemoveFromEnvironment(this);
        }
        todo := todo - {player};
      }
    }

    /** `RegisterPlayer`: the player's bit was clear and is now set. */
    method RegisterPlayer(player: ServerPlayer)
      requires player.playerIndex !in registeredPlayers
      modifies this`registeredPlayers
      ensures registeredPlayers == old(registeredPlayers) + {player.playerIndex}
    {
      registeredPlayers := registeredPlayers + {player.playerIndex};
    }

    /** `UnregisterPlayer`: the player's bit was set and is now clear. */
    method UnregisterPlayer(player: ServerPlayer)
      requires player.playerIndex in registeredPlayers
      modifies this`registeredPlayers
      ensures registeredPlayers == old(registeredPlayers) - {player.playerIndex}
    {
      registeredPlayers := registeredPlayers - {player.playerIndex};
    }

    /** The destructor: every player registered here leaves this environment, then
        every connected environment is disconnected from this one, which needs the
        reverse entry in each. (Clearing the entity registry and the systems is not
        modelled.) */
    method Teardown()
      requires forall e :: e in connectedEnvironments ==> this in e.connectedEnvironments
      modifies Players()`environments, connectedEnvironments.Keys`connectedEnvironments
      ensures forall e :: e in old(connectedEnvironments) ==>
                e.connectedEnvironments == Disconnected(old(e.connectedEnvironments), this)
      ensures forall p :: p in old(Players()) ==>
                p.environments == old(p.environments) - {this}
                                  - (if p.rootEnvironment == this then old(connectedEnvironments).Keys else {})
    {
      LeaveAll();
      DisconnectAll();
    }

    /** The player loop of the destructor: every player registered here leaves it. */
    method LeaveAll()
      modifies Players()`environments
      ensures forall p :: p in old(Players()) ==> p.environments == old(p.environments) - {this}
    {
      ghost var all := Players();
      var todo := Players();
      while todo != {}
        invariant todo <= all
        invariant forall p :: p in all ==>
                    p.environments == if p in todo then old(p.environments) else old(p.environments) - {this}
        decreases todo
      {
        var player :| player in todo;
        player.RemoveFromEnvironment(this);
        todo := todo - {player};
      }
    }

    /** The loop over the connected environments of the destructor. The loop walks a
        snapshot of the table. */
    method DisconnectAll()
      requires forall e :: e in connectedEnvironments ==> this in e.connectedEnvironments
      modifies Players()`environments, connectedEnvironments.Keys`connectedEnvironments
      ensures forall e :: e in old(connectedEnvironments) ==>
                e.connectedEnvironments == Disconnected(old(e.connectedEnvironments), this)
      ensures forall p :: p in old(Players()) ==>
                p.environments == old(p.environments)
                                  - (if p.rootEnvironment == this then old(connectedEnvironments).Keys else {})
    {
      ghost var tables := map e | e in connectedEnvironments :: e.connectedEnvironments;
      ghost var seen := map p | p in Players() :: p.environments;
      ghost var done: set<ServerEnvironment> := {};
      var todo := connectedEnvironments.Keys;
      while todo != {}
        invariant seen.Keys == Players() && tables.Keys == old(connectedEnvironments).Keys
        invariant Disconnecting(tables, seen, todo, done)
        decreases todo
      {
        var environment :| environment in todo;
        DisconnectStep(environment, tables, seen, todo, done);
        done := done + {environment};
        todo := todo - {environment};
      }
    }

    /** Progress of the destructor's loop: the environments in `done` have dropped
        their entry for this one, and the players rooted here no longer see them;
        `tables` and `seen` hold the state before the loop. */
    ghost predicate Disconnecting(tables: map<ServerEnvironment, map<ServerEnvironment, EnvironmentTransform>>,
                                  seen: map<ServerPlayer, set<ServerEnvironment>>,
                                  todo: set<ServerEnvironment>, done: set<ServerEnvironment>)
      reads tables.Keys, seen.Keys
    {
      && todo !! done && todo + done == tables.Keys
      && (forall e :: e in todo ==> this in e.connectedEnvironments)
      && (forall e :: e in tables ==>
            e.connectedEnvironments == if e in todo then tables[e] else Disconnected(tables[e], this))
      && (forall p :: p in seen ==>
            p.environments == seen[p] - (if p.rootEnvironment == this then done else {}))
    }

    /** One turn of the destructor's loop: `environment->Disconnect(*this)`. */
    method DisconnectStep(environment: ServerEnvironment,
                          ghost tables: map<ServerEnvironment, map<ServerEnvironment, EnvironmentTransform>>,
                          ghost seen: map<ServerPlayer, set<ServerEnvironment>>,
                          ghost todo: set<ServerEnvironment>, ghost done: set<ServerEnvironment>)
      requires environment in todo && seen.Keys == Players() && Disconnecting(tables, seen, todo, done)
      modifies environment`connectedEnvironments, Players()`environments
      ensures seen.Keys == Players()
      ensures Disconnecting(tables, seen, todo - {environment}, done + {environment})
    {
      environment.Disconnect(this);
    }
  }
}
