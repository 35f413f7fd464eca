/**
 * The older level settings of Assets/Scripts/Level/LevelSettings.cs: five
 * public player switches set by name and two spawn positions, of which only
 * the player spawn can be set by name.
 */
module LegacyLevelSettings {

  import opened Geometry
  import opened Options

  datatype Switches = Switches(canMove: bool, canJump: bool, canMorphToCircle: bool,
                               canMorphToTriangle: bool, canMorphToRectangle: bool)

  /** The five switches setSetting(string, bool) knows. */
  datatype SwitchKey = CanMove | CanJump | CanMorphToCircle | CanMorphToTriangle | CanMorphToRectangle

  function KeyName(k: SwitchKey): string {
    match k
    case CanMove => "canMove"
    case CanJump => "canJump"
    case CanMorphToCircle => "canMorphToCircle"
    case CanMorphToTriangle => "canMorphToTriangle"
    case CanMorphToRectangle => "canMorphToRectangle"
  }

  /** The switch's cases: the key a name selects, None for an unknown name. */
  function KeyOf(name: string): (r: Option<SwitchKey>)
    ensures r.Some? ==> KeyName(r.value) == name
    ensures forall k :: KeyName(k) == name ==> r == Some(k)
  {
    match name
    case "canMove" => Some(CanMove)
    case "canJump" => Some(CanJump)
    case "canMorphToCircle" => Some(CanMorphToCircle)
    case "canMorphToTriangle" => Some(CanMorphToTriangle)
    case "canMorphToRectangle" => Some(CanMorphToRectangle)
    case _ => None
  }

  function Get(s: Switches, k: SwitchKey): bool {
    match k
    case CanMove => s.canMove
    case CanJump => s.canJump
    case CanMorphToCircle => s.canMorphToCircle
    case CanMorphToTriangle => s.canMorphToTriangle
    case CanMorphToRectangle => s.canMorphToRectangle
  }

  /**
   * setSetting(string, bool) on the switches: the named switch takes the value,
   * every other switch keeps its own, and an unknown name changes nothing.
   */
  function SetSwitch(s: Switches, name: string, value: bool): (r: Switches)
    ensures KeyOf(name).None? ==> r == s
    ensures forall k :: Get(r, k) == if Some(k) == KeyOf(name) then value else Get(s, k)
  {
    match KeyOf(name)
    case Some(CanMove) => s.(canMove := value)
    case Some(CanJump) => s.(canJump := value)
    case Some(CanMorphToCircle) => s.(canMorphToCircle := value)
    case Some(CanMorphToTriangle) => s.(canMorphToTriangle := value)
    case Some(CanMorphToRectangle) => s.(canMorphToRectangle := value)
    case None => s
  }

  /** Who setSetting(string, bool) forwards a switch to. */
  datatype Forward = ToPlayerController(name: string, value: bool) | ToPlayerManager(name: string, value: bool)

  class LevelSettings {
    var switches: Switches
    var worldSpawn: Vec2
    var playerSpawn: Vec2
    var enableGroundColliders: bool

    /** The field initialisers: every switch on; the spawns and the collider flag as placed. */
    constructor (worldSpawnPlaced: Vec2, playerSpawnPlaced: Vec2, groundColliders: bool)
      ensures switches == Switches(true, true, true, true, true)
      ensures worldSpawn == worldSpawnPlaced && playerSpawn == playerSpawnPlaced
      ensures enableGroundColliders == groundColliders
    {
      switches := Switches(true, true, true, true, true);
      worldSpawn := worldSpawnPlaced;
      playerSpawn := playerSpawnPlaced;
      enableGroundColliders := groundColliders;
    }

    /**
     * Start: both spawns become the player object's position. The result says
     * whether the ground prefabs' colliders are switched on.
     */
    method Start(playerLocalPosition: Vec2) returns (enablesColliders: bool)
      modifies this`worldSpawn, this`playerSpawn
      ensures worldSpawn == playerSpawn == playerLocalPosition
      ensures enablesColliders == enableGroundColliders
    {
      worldSpawn := playerLocalPosition;
      playerSpawn := playerLocalPosition;
      enablesColliders := enableGroundColliders;
    }

    /**
     * setSetting(string, bool): a known switch is set; the movement switches are
     * forwarded to the player controller, the morph switches to the player manager.
     */
    method SetSwitchSetting(name: string, value: bool) returns (forwarded: seq<Forward>)
      modifies this`switches
      ensures switches == SetSwitch(old(switches), name, value)
      ensures forwarded == match KeyOf(name)
                           case Some(CanMove) | Some(CanJump) => [ToPlayerController(name, value)]
                           case Some(_) => [ToPlayerManager(name, value)]
                           case None => []
    {
      match name {
        case "canMove" =>
          switches := switches.(canMove := value);
          forwarded := [ToPlayerController(name, value)];
        case "canJump" =>
          switches := switches.(canJump := value);
          forwarded := [ToPlayerController(name, value)];
        case "canMorphToCircle" =>
          switches := switches.(canMorphToCircle := value);
          forwarded := [ToPlayerManager(name, value)];
        case "canMorphToTriangle" =>
          switches := switches.(canMorphToTriangle := value);
          forwarded := [ToPlayerManager(name, value)];
        case "canMorphToRectangle" =>
          switches := switches.(canMorphToRectangle := value);
          forwarded := [ToPlayerManager(name, value)];
        case _ =>
          forwarded := [];
      }
    }

    /** setSetting(string, Vector2): only "playerSpawn" is known; the world spawn cannot be set. */
    method SetVectorSetting(name: string, pos: Vec2)
      modifies this`playerSpawn
      ensures playerSpawn == if name == "playerSpawn" then pos else old(playerSpawn)
    {
      if name == "playerSpawn" {
        playerSpawn := pos;
      }
    }
  }

}
