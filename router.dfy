/**
 * The engine-wide router: it finds the container a setting's scope selects
 * for a player — the player's local-player container or the one
 * game-instance container — and forwards reads, changes and the batch
 * operations to it.
 */
module Router {
  import opened SettingsTypes
  import opened SettingDefinitions
  import opened Lists
  import opened Bindings
  import opened Container

  /** Identifies a local player. */
  type LocalPlayerId = nat

  /** A player controller: invalid (null or destroyed), or one driving a local player. */
  datatype PlayerController = InvalidController | Controller(localPlayer: LocalPlayerId)

  /** A local-player subsystem: the player it belongs to and the container it owns. */
  datatype LocalPlayerSubsystem = LocalPlayerSubsystem(localPlayer: LocalPlayerId, container: SettingsContainer)

  /** The game-instance subsystem and the container it owns. */
  datatype GameInstanceSubsystem = GameInstanceSubsystem(container: SettingsContainer)

  /** One container's share of a player's apply: its pending values are committed. */
  method ApplyContainer(c: SettingsContainer) returns (status: Status)
    requires c.Valid()
    modifies c
    ensures c.Valid()
    ensures status == Completed <==> old(c.ApplyCompletes())
    ensures status == Completed ==> !c.HasUnappliedChanges() && c.ApplyCompletes()
  {
    var order;
    order, status := c.ApplyChanges();
  }

  /** One container's share of a player's clear: its pending values are dropped. */
  method ClearContainer(c: SettingsContainer)
    requires c.Valid()
    modifies c
    ensures c.Valid() && !c.HasUnappliedChanges()
    ensures c.store == old(c.store) && c.changed == old(c.changed)
  {
    var order := c.ClearUnappliedChanges();
  }

  /** One container's share of a player's reset: it is reset to defaults and saved. */
  method ResetContainer(c: SettingsContainer) returns (status: Status)
    requires c.Valid()
    modifies c
    ensures c.Valid()
    ensures status == Completed <==> old(c.ResetAndSaveCompletes())
    ensures status == Completed ==> !c.CanResetSettings() && !c.HasUnappliedChanges() && c.ResetAndSaveCompletes()
  {
    status := c.ResetSettingsAndApply();
  }

  class SettingsRouter {
    /** The registered local-player subsystems, by player. */
    var localPlayerSubsystems: map<LocalPlayerId, LocalPlayerSubsystem>
    /** The registered game-instance subsystem; None stands for a null pointer. */
    var gameInstanceSubsystem: Option<GameInstanceSubsystem>

    /** Every container reachable through a registered subsystem. */
    function Containers(): set<SettingsContainer>
      reads this
    {
      (set lp | lp in localPlayerSubsystems :: localPlayerSubsystems[lp].container)
      + (if gameInstanceSubsystem.Some? then {gameInstanceSubsystem.value.container} else {})
    }

    ghost predicate Valid()
      reads this, Containers()
    {
      forall c :: c in Containers() ==> c.Valid()
    }

    constructor ()
      ensures Valid()
      ensures localPlayerSubsystems == map[] && gameInstanceSubsystem == None
    {
      localPlayerSubsystems := map[];
      gameInstanceSubsystem := None;
    }

    // ---------------------------------------------------------------- routing

    /**
     * The container a scope selects: the game-instance container (a missing
     * subsystem is a null dereference), or the container registered for the
     * controller's local player (an invalid controller is dereferenced, and a
     * player without a subsystem fails the map's check).
     */
    function ContainerFromScope(pc: PlayerController, scope: Scope): (r: Result<SettingsContainer>)
      reads this
      ensures r.Ok? ==> r.value in Containers()
      ensures scope == GameInstanceScope ==>
        (r.Ok? <==> gameInstanceSubsystem.Some?) && (r.Ok? ==> r.value == gameInstanceSubsystem.value.container)
      ensures scope == LocalPlayerScope ==>
        (r.Ok? <==> pc.Controller? && pc.localPlayer in localPlayerSubsystems)
        && (r.Ok? ==> r.value == localPlayerSubsystems[pc.localPlayer].container)
    {
      match scope
      case GameInstanceScope =>
        if gameInstanceSubsystem.Some? then Ok(gameInstanceSubsystem.value.container) else Fatal
      case LocalPlayerScope =>
        if pc.Controller? && pc.localPlayer in localPlayerSubsystems then Ok(localPlayerSubsystems[pc.localPlayer].container)
        else Fatal
    }

    /**
     * The containers a player's batch operations visit: none for an invalid
     * controller, otherwise the local-player container and then the
     * game-instance container.
     */
    function ContainersForPlayer(pc: PlayerController): (r: Result<seq<SettingsContainer>>)
      reads this
      ensures pc.InvalidController? ==> r == Ok([])
      ensures pc.Controller? ==>
        (r.Ok? <==> ContainerFromScope(pc, LocalPlayerScope).Ok? && ContainerFromScope(pc, GameInstanceScope).Ok?)
      ensures pc.Controller? && r.Ok? ==>
        r.value == [ContainerFromScope(pc, LocalPlayerScope).value, ContainerFromScope(pc, GameInstanceScope).value]
      ensures r.Ok? ==> forall c :: c in r.value ==> c in Containers()
    {
      if pc.InvalidController? then Ok([])
      else
        var local := ContainerFromScope(pc, LocalPlayerScope);
        var game := ContainerFromScope(pc, GameInstanceScope);
        if local.Ok? && game.Ok? then Ok([local.value, game.value]) else Fatal
    }

    /** The router never reports any container as a whole. */
    function GetAllEnhancedSettingsContainers(): seq<SettingsContainer>
    {
      []
    }

    // ---------------------------------------------------------------- registration

    /** Registers a local player's subsystem, replacing any earlier one of the same player. */
    method RegisterLocalPlayerSubsystem(sub: LocalPlayerSubsystem)
      requires Valid() && sub.container.Valid()
      modifies this
      ensures Valid()
      ensures localPlayerSubsystems == old(localPlayerSubsystems)[sub.localPlayer := sub]
      ensures gameInstanceSubsystem == old(gameInstanceSubsystem)
      ensures ContainerFromScope(Controller(sub.localPlayer), LocalPlayerScope) == Ok(sub.container)
    {
      localPlayerSubsystems := localPlayerSubsystems[sub.localPlayer := sub];
    }

    /** Forgets the subsystem registered for a local player. */
    method UnregisterLocalPlayerSubsystem(sub: LocalPlayerSubsystem)
      requires Valid()
      modifies this
      ensures Valid()
      ensures localPlayerSubsystems == old(localPlayerSubsystems) - {sub.localPlayer}
      ensures gameInstanceSubsystem == old(gameInstanceSubsystem)
      ensures ContainerFromScope(Controller(sub.localPlayer), LocalPlayerScope) == Fatal
    {
      localPlayerSubsystems := localPlayerSubsystems - {sub.localPlayer};
    }

    method RegisterGameInstanceSubsystem(sub: GameInstanceSubsystem)
      requires Valid() && sub.container.Valid()
      modifies this
      ensures Valid()
      ensures gameInstanceSubsystem == Some(sub) && localPlayerSubsystems == old(localPlayerSubsystems)
      ensures forall pc :: ContainerFromScope(pc, GameInstanceScope) == Ok(sub.container)
    {
      gameInstanceSubsystem := Some(sub);
    }

    method UnregisterGameInstanceSubsystem()
      requires Valid()
      modifies this
      ensures Valid()
      ensures gameInstanceSubsystem == None && localPlayerSubsystems == old(localPlayerSubsystems)
      ensures forall pc :: ContainerFromScope(pc, GameInstanceScope) == Fatal
    {
      gameInstanceSubsystem := None;
    }

    // ---------------------------------------------------------------- values

    /**
     * Reads a setting's committed value of a type from the container its
     * scope selects: the stored value, or the type's sentinel for an id that
     * container does not hold.
     */
    function GetBoundTypedValue(pc: PlayerController, s: Setting, t: ValueType): (r: Result<Payload>)
      requires IsStoredType(t)
      reads this, Containers()
      ensures r.Ok? <==> ContainerFromScope(pc, ScopeOf(s)).Ok?
      ensures r.Ok? ==> TypeOf(r.value) == t
      ensures r.Ok? ==>
        var c := ContainerFromScope(pc, ScopeOf(s)).value;
        (Lookup(c.store, t, s.id).Some? ==> r.value == Lookup(c.store, t, s.id).value)
        && (Lookup(c.store, t, s.id).None? ==> r.value == Sentinel(t))
    {
      match ContainerFromScope(pc, ScopeOf(s))
      case Fatal => Fatal
      case Ok(c) => Ok(c.GetBoundTypedValue(s, t))
    }

    /**
     * Proposes a value to the container the setting's scope selects. A tag
     * value for an invalid controller is dropped; no other kind checks the
     * controller.
     */
    method ChangeBoundValue(pc: PlayerController, s: Setting, p: Payload) returns (status: Status)
      requires Valid()
      modifies Containers()
      ensures Valid()
      ensures p.TagPayload? && pc.InvalidController? ==>
        status == Completed && forall c :: c in old(Containers()) ==> unchanged(c)
      ensures !(p.TagPayload? && pc.InvalidController?) ==>
        (status == Crashed <==> ContainerFromScope(pc, ScopeOf(s)).Fatal?)
      ensures status == Completed && !(p.TagPayload? && pc.InvalidController?) ==>
        var c := ContainerFromScope(pc, ScopeOf(s)).value;
        c.invoked == old(c.invoked) + Fires(c.bindings, s, Changed, FromPayload(p))
        && (Lookup(c.store, TypeOf(p), s.id) == Some(p) ==> c.pending == old(c.pending) - {s})
        && (Lookup(c.store, TypeOf(p), s.id) != Some(p) ==> c.pending == old(c.pending)[s := FromPayload(p)])
        && c.store == old(c.store) && c.changed == old(c.changed)
        && forall other :: other in old(Containers()) && other != c ==> unchanged(other)
      ensures localPlayerSubsystems == old(localPlayerSubsystems) && gameInstanceSubsystem == old(gameInstanceSubsystem)
    {
      if p.TagPayload? && pc.InvalidController? {
        return Completed;
      }
      var target := ContainerFromScope(pc, ScopeOf(s));
      if target.Fatal? {
        return Crashed;
      }
      target.value.ChangeBoundValue(s, p);
      return Completed;
    }

    // ---------------------------------------------------------------- batch operations

    /** Whether any of the player's containers holds uncommitted changes. */
    method HasUnappliedChanges(pc: PlayerController) returns (r: Result<bool>)
      ensures r.Ok? <==> ContainersForPlayer(pc).Ok?
      ensures pc.InvalidController? ==> r == Ok(false)
      ensures r.Ok? ==> (r.value <==> exists c :: c in ContainersForPlayer(pc).value && c.HasUnappliedChanges())
    {
      if pc.InvalidController? {
        return Ok(false);
      }
      var cs := ContainersForPlayer(pc);
      if cs.Fatal? {
        return Fatal;
      }
      var i := 0;
      while i < |cs.value|
        invariant 0 <= i <= |cs.value|
        invariant forall j :: 0 <= j < i ==> !cs.value[j].HasUnappliedChanges()
      {
        if cs.value[i].HasUnappliedChanges() {
          return Ok(true);
        }
        i := i + 1;
      }
      return Ok(false);
    }

    /** Whether any of the player's containers has something to reset. */
    method CanResetSettings(pc: PlayerController) returns (r: Result<bool>)
      ensures r.Ok? <==> ContainersForPlayer(pc).Ok?
      ensures pc.InvalidController? ==> r == Ok(false)
      ensures r.Ok? ==> (r.value <==> exists c :: c in ContainersForPlayer(pc).value && c.CanResetSettings())
    {
      if pc.InvalidController? {
        return Ok(false);
      }
      var cs := ContainersForPlayer(pc);
      if cs.Fatal? {
        return Fatal;
      }
      var i := 0;
      while i < |cs.value|
        invariant 0 <= i <= |cs.value|
        invariant forall j :: 0 <= j < i ==> !cs.value[j].CanResetSettings()
      {
        if cs.value[i].CanResetSettings() {
          return Ok(true);
        }
        i := i + 1;
      }
      return Ok(false);
    }

    /** Commits the pending values of each of the player's containers. */
    method ApplyChanges(pc: PlayerController) returns (status: Status)
      requires Valid()
      modifies Containers()
      ensures Valid()
      ensures pc.InvalidController? ==> status == Completed && forall c :: c in old(Containers()) ==> unchanged(c)
      ensures status == Completed <==>
        old(ContainersForPlayer(pc).Ok? && forall c :: c in ContainersForPlayer(pc).value ==> c.ApplyCompletes())
      ensures status == Completed && pc.Controller? ==>
        ContainersForPlayer(pc).Ok? && forall c :: c in ContainersForPlayer(pc).value ==> !c.HasUnappliedChanges()
      ensures localPlayerSubsystems == old(localPlayerSubsystems) && gameInstanceSubsystem == old(gameInstanceSubsystem)
    {
      if pc.InvalidController? {
        return Completed;
      }
      var cs := ContainersForPlayer(pc);
      if cs.Fatal? {
        return Crashed;
      }
      var list := cs.value;
      ghost var all := Containers();
      var i := 0;
      while i < |list|
        invariant 0 <= i <= |list|
        invariant forall c :: c in all ==> c.Valid()
        invariant forall j :: 0 <= j < i ==> !list[j].HasUnappliedChanges()
        invariant forall j :: 0 <= j < i ==> old(list[j].ApplyCompletes())
        invariant forall j :: i <= j < |list| ==> (list[j].ApplyCompletes() <==> old(list[j].ApplyCompletes()))
      {
        var st := ApplyContainer(list[i]);
        if st == Crashed {
          return Crashed;
        }
        i := i + 1;
      }
      return Completed;
    }

    /** Discards the pending values of each of the player's containers; no committed value changes. */
    method ClearChanges(pc: PlayerController) returns (status: Status)
      requires Valid()
      modifies Containers()
      ensures Valid()
      ensures pc.InvalidController? ==> status == Completed && forall c :: c in old(Containers()) ==> unchanged(c)
      ensures pc.Controller? ==> (status == Crashed <==> ContainersForPlayer(pc).Fatal?)
      ensures status == Completed && pc.Controller? ==>
        forall c :: c in ContainersForPlayer(pc).value ==> !c.HasUnappliedChanges()
      ensures forall c :: c in old(Containers()) ==> c.store == old(c.store) && c.changed == old(c.changed)
      ensures localPlayerSubsystems == old(localPlayerSubsystems) && gameInstanceSubsystem == old(gameInstanceSubsystem)
    {
      if pc.InvalidController? {
        return Completed;
      }
      var cs := ContainersForPlayer(pc);
      if cs.Fatal? {
        return Crashed;
      }
      var list := cs.value;
      ghost var all := Containers();
      var i := 0;
      while i < |list|
        invariant 0 <= i <= |list|
        invariant forall c :: c in all ==> c.Valid()
        invariant forall j :: 0 <= j < i ==> !list[j].HasUnappliedChanges()
        invariant forall c :: c in old(Containers()) ==> c.store == old(c.store) && c.changed == old(c.changed)
      {
        ClearContainer(list[i]);
        i := i + 1;
      }
      return Completed;
    }

    /**
     * Resets and saves each of the player's containers. The scope argument is
     * accepted and not used: every container of the player is reset.
     */
    method ResetSettings(pc: PlayerController, scope: Scope) returns (status: Status)
      requires Valid()
      modifies Containers()
      ensures Valid()
      ensures pc.InvalidController? ==> status == Completed && forall c :: c in old(Containers()) ==> unchanged(c)
      ensures status == Completed <==>
        old(ContainersForPlayer(pc).Ok? && forall c :: c in ContainersForPlayer(pc).value ==> c.ResetAndSaveCompletes())
      ensures status == Completed && pc.Controller? ==>
        ContainersForPlayer(pc).Ok?
        && forall c :: c in ContainersForPlayer(pc).value ==> !c.CanResetSettings() && !c.HasUnappliedChanges()
      ensures localPlayerSubsystems == old(localPlayerSubsystems) && gameInstanceSubsystem == old(gameInstanceSubsystem)
    {
      if pc.InvalidController? {
        return Completed;
      }
      var cs := ContainersForPlayer(pc);
      if cs.Fatal? {
        return Crashed;
      }
      var list := cs.value;
      ghost var all := Containers();
      var i := 0;
      while i < |list|
        invariant 0 <= i <= |list|
        invariant forall c :: c in all ==> c.Valid()
        invariant forall j :: 0 <= j < i ==> !list[j].CanResetSettings() && !list[j].HasUnappliedChanges()
        invariant forall j :: 0 <= j < i ==> old(list[j].ResetAndSaveCompletes())
        invariant forall j :: i <= j < |list| ==> (list[j].ResetAndSaveCompletes() <==> old(list[j].ResetAndSaveCompletes()))
      {
        var st := ResetContainer(list[i]);
        if st == Crashed {
          return Crashed;
        }
        i := i + 1;
      }
      return Completed;
    }

    // ---------------------------------------------------------------- wrappers

    /** Wrapper bookkeeping always goes to the game-instance container, whatever the controller. */
    method AddPendingEnhancedSettingWrapper(pc: PlayerController, w: Wrapper) returns (status: Status)
      requires Valid()
      modifies Containers()
      ensures Valid()
      ensures status == Crashed <==> gameInstanceSubsystem.None?
      ensures status == Completed ==>
        var c := gameInstanceSubsystem.value.container;
        c.pendingWrappers == AddUnique(old(c.pendingWrappers), w) && c.HasUnappliedChanges()
        && c.changedWrappers == old(c.changedWrappers) && c.store == old(c.store) && c.pending == old(c.pending)
      ensures localPlayerSubsystems == old(localPlayerSubsystems) && gameInstanceSubsystem == old(gameInstanceSubsystem)
    {
      var target := ContainerFromScope(pc, GameInstanceScope);
      if target.Fatal? {
        return Crashed;
      }
      target.value.AddPendingEnhancedSettingWrapper(w);
      return Completed;
    }

    method RemovePendingEnhancedSettingWrapper(pc: PlayerController, w: Wrapper) returns (status: Status)
      requires Valid()
      modifies Containers()
      ensures Valid()
      ensures status == Crashed <==> gameInstanceSubsystem.None?
      ensures status == Completed ==>
        var c := gameInstanceSubsystem.value.container;
        c.pendingWrappers == RemoveAll(old(c.pendingWrappers), w)
        && c.changedWrappers == old(c.changedWrappers) && c.store == old(c.store) && c.pending == old(c.pending)
      ensures localPlayerSubsystems == old(localPlayerSubsystems) && gameInstanceSubsystem == old(gameInstanceSubsystem)
    {
      var target := ContainerFromScope(pc, GameInstanceScope);
      if target.Fatal? {
        return Crashed;
      }
      target.value.RemovePendingEnhancedSettingWrapper(w);
      return Completed;
    }

    method AddEnhancedSettingWrapperChangedSetting(pc: PlayerController, w: Wrapper) returns (status: Status)
      requires Valid()
      modifies Containers()
      ensures Valid()
      ensures status == Crashed <==> gameInstanceSubsystem.None?
      ensures status == Completed ==>
        var c := gameInstanceSubsystem.value.container;
        c.changedWrappers == AddUnique(old(c.changedWrappers), w) && c.CanResetSettings()
        && c.pendingWrappers == old(c.pendingWrappers) && c.store == old(c.store) && c.changed == old(c.changed)
      ensures localPlayerSubsystems == old(localPlayerSubsystems) && gameInstanceSubsystem == old(gameInstanceSubsystem)
    {
      var target := ContainerFromScope(pc, GameInstanceScope);
      if target.Fatal? {
        return Crashed;
      }
      target.value.AddEnhancedSettingWrapperChangedSetting(w);
      return Completed;
    }

    method RemoveEnhancedSettingWrapperChangedSetting(pc: PlayerController, w: Wrapper) returns (status: Status)
      requires Valid()
      modifies Containers()
      ensures Valid()
      ensures status == Crashed <==> gameInstanceSubsystem.None?
      ensures status == Completed ==>
        var c := gameInstanceSubsystem.value.container;
        c.changedWrappers == RemoveAll(old(c.changedWrappers), w)
        && c.pendingWrappers == old(c.pendingWrappers) && c.store == old(c.store) && c.changed == old(c.changed)
      ensures localPlayerSubsystems == old(localPlayerSubsystems) && gameInstanceSubsystem == old(gameInstanceSubsystem)
    {
      var target := ContainerFromScope(pc, GameInstanceScope);
      if target.Fatal? {
        return Crashed;
      }
      target.value.RemoveEnhancedSettingWrapperChangedSetting(w);
      return Completed;
    }
  }
}
