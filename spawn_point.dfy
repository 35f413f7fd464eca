/**
 * The spawn point prefab of Assets/Scripts/Level/Elements/SpawnPoint.cs: a
 * point becomes the one active spawn point when the player touches it and it
 * lies to the right of the current spawn; at its next Update it hands its
 * coordinates to the level settings. After a respawn its holding arm pushes
 * the player out and is put back.
 */
module SpawnPoints {

  import opened Geometry

  /** The requests a spawn point sends to the level settings, the player and the sound. */
  datatype Notice = SetPlayerSpawn(spawn: Vec2) | ActivateSound | HasSpawnPoint

  /** The per-step movement of the arm: 19 units over 50 steps. */
  const ArmSteps: nat := 50
  const ArmDistance: real := 19.0

  class SpawnPoint {
    var spawnCoordinates: Vec2
    var isActivated: bool
    var activeInLastFrame: bool
    /** The top texture shows the activated sprite. */
    var showsActivated: bool
    var messageVisible: bool
    var textureSortingOrder: int
    /** sortingOrderTexture: the texture's order saved in Awake. */
    var savedTextureOrder: int
    /** The x of the holding arm; the arm moves only horizontally. */
    var holderX: real
    /** playerHolderPosition.x: the arm's position saved in Awake. */
    var savedHolderX: real
    var holderSortingOrder: int
    var savedHolderOrder: int
    var holderOpen: bool

    /**
     * Awake: the inner objects' positions and sorting orders are saved, the
     * message hidden. Awake does not set the texture: `prefabActivated` says
     * whether the prefab's own sprite is the activated one. The arm's sprite
     * is saved as its closed sprite, so the arm starts closed.
     */
    constructor (coordinates: Vec2, textureOrder: int, armX: real, armOrder: int, prefabActivated: bool)
      ensures spawnCoordinates == coordinates && !isActivated && !activeInLastFrame
      ensures showsActivated == prefabActivated && !messageVisible && !holderOpen
      ensures textureSortingOrder == textureOrder && savedTextureOrder == textureOrder
      ensures holderX == armX && savedHolderX == armX
      ensures holderSortingOrder == armOrder && savedHolderOrder == armOrder
    {
      isActivated := false;
      activeInLastFrame := false;
      showsActivated := prefabActivated;
      textureSortingOrder := textureOrder;
      savedTextureOrder := textureOrder;
      holderX := armX;
      savedHolderX := armX;
      holderOpen := false;
      holderSortingOrder := armOrder;
      savedHolderOrder := armOrder;
      messageVisible := false;
      spawnCoordinates := coordinates;
    }

    /**
     * Update: while the player is dead an active point is drawn above it. When
     * the point was inactive last frame its look follows isActivated, and on
     * activation the player spawn is set to its coordinates. The flag for the
     * next frame is then recorded.
     */
    method Update(playerIsDead: bool, playerTextureOrder: int) returns (notices: seq<Notice>)
      modifies this`textureSortingOrder, this`showsActivated, this`messageVisible, this`activeInLastFrame
      ensures activeInLastFrame == isActivated
      ensures SetPlayerSpawn(spawnCoordinates) in notices <==> !old(activeInLastFrame) && isActivated
      ensures notices == if !old(activeInLastFrame) && isActivated then [SetPlayerSpawn(spawnCoordinates), ActivateSound] else []
      ensures !old(activeInLastFrame) ==> showsActivated == isActivated && messageVisible == isActivated
      ensures old(activeInLastFrame) ==> showsActivated == old(showsActivated) && messageVisible == old(messageVisible)
      ensures textureSortingOrder == if isActivated && playerIsDead then playerTextureOrder + 2 else old(textureSortingOrder)
    {
      notices := [];
      if isActivated && playerIsDead {
        textureSortingOrder := playerTextureOrder + 2;
      }
      if !activeInLastFrame {
        if isActivated {
          showsActivated := true;
          messageVisible := true;
          notices := [SetPlayerSpawn(spawnCoordinates), ActivateSound];
        } else {
          showsActivated := false;
          messageVisible := false;
        }
      }
      activeInLastFrame := isActivated;
    }

    /**
     * OnTriggerEnter2D: the point activates only when it is not active yet and
     * lies to the right of the current player spawn. Then every other spawn
     * point in `spawnPoints` (the SpawnPoint components of the objects tagged
     * "SpawnPoint", null where an object has none) is deactivated.
     */
    method OnTriggerEnter2D(playerSpawn: Vec2, spawnPoints: seq<SpawnPoint?>) returns (notices: seq<Notice>)
      modifies (set p | p in spawnPoints && p != null)`isActivated, this`isActivated
      ensures var fires := !old(isActivated) && playerSpawn.x < spawnCoordinates.x;
              (fires ==> isActivated && notices == [HasSpawnPoint] &&
                         forall p :: p in spawnPoints && p != null && p.isActivated ==> p == this) &&
              (!fires ==> isActivated == old(isActivated) && notices == [] &&
                          forall p :: p in spawnPoints && p != null ==> p.isActivated == old(p.isActivated))
    {
      notices := [];
      if !isActivated && playerSpawn.x < spawnCoordinates.x {
        notices := [HasSpawnPoint];
        for i := 0 to |spawnPoints|
          invariant forall k :: 0 <= k < i && spawnPoints[k] != null && spawnPoints[k] != this ==> !spawnPoints[k].isActivated
        {
          var sp := spawnPoints[i];
          if sp != this {
            if sp != null {
              sp.isActivated := false;
            }
          }
        }
        isActivated := true;
      }
    }

    /**
     * moveOutHoldingArm with its waits removed: the arm is drawn above the
     * player, goes out in 50 steps, opens and closes, comes back in 50 / 4
     * steps four times as long, and is then put back where Awake found it,
     * with both sorting orders restored. `drift` is how far the stepping alone
     * left it from its start: 50 / 4 rounds down to 12, so the arm comes back
     * only 48 of the 50 steps and the reset is what puts it back.
     */
    method MoveOutHoldingArm(playerTextureOrder: int) returns (drift: real)
      modifies this`holderSortingOrder, this`holderX, this`holderOpen, this`textureSortingOrder
      ensures drift == 0.76
      ensures holderX == savedHolderX && !holderOpen
      ensures textureSortingOrder == savedTextureOrder && holderSortingOrder == savedHolderOrder
    {
      holderSortingOrder := playerTextureOrder + 1;
      var steps: nat := ArmSteps;
      var moveBy := ArmDistance / steps as real;
      var x := holderX;
      for i := 0 to steps
        invariant x == holderX + (i as real) * moveBy
        modifies {}
      {
        x := x + moveBy;
      }
      holderOpen := true;
      holderOpen := false;
      var out := x;
      steps := steps / 4;
      moveBy := moveBy * 4.0;
      for i := 0 to steps
        invariant x == out - (i as real) * moveBy
        modifies {}
      {
        x := x - moveBy;
      }
      drift := x - holderX;
      holderX := savedHolderX;
      textureSortingOrder := savedTextureOrder;
      holderSortingOrder := savedHolderOrder;
    }
  }

}
