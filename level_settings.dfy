/**
 * The level settings of Assets/Scripts/Level/Controllers/LevelSettings.cs: the
 * level's id, six player switches, the ground-collider switch and two spawn
 * positions, read and written through keyed getters and setters whose unknown
 * keys change nothing and read as zero or false.
 */
module LevelSettingsStore {

  import opened Geometry

  /**
   * The ids of the Player constants the integer setter switches on. The class
   * that defines them is not part of this model; any six distinct values
   * behave the same.
   */
  const CanMoveId: int := 0
  const CanJumpId: int := 1
  const CanSelfDestructId: int := 2
  const CanMorphToCircleId: int := 3
  const CanMorphToTriangleId: int := 4
  const CanMorphToRectangleId: int := 5

  /** The six player switches. */
  datatype Switches = Switches(canMove: bool, canJump: bool, canSelfDestruct: bool,
                               canMorphToCircle: bool, canMorphToTriangle: bool, canMorphToRectangle: bool)

  /** The name getBool answers to for a switch id; no name for an unknown id. */
  function SwitchName(id: int): (r: string) {
    match id
    case 0 => "canMove"
    case 1 => "canJump"
    case 2 => "canSelfDestruct"
    case 3 => "canMorphToCircle"
    case 4 => "canMorphToTriangle"
    case 5 => "canMorphToRectangle"
    case _ => ""
  }

  predicate KnownSwitch(id: int) {
    0 <= id <= 5
  }

  /** What setSetting(int, bool) leaves of the switches: at most the one named by id changes. */
  function SetSwitch(s: Switches, id: int, value: bool): (r: Switches)
    ensures !KnownSwitch(id) ==> r == s
    ensures id == CanMoveId ==> r == s.(canMove := value)
    ensures id == CanJumpId ==> r == s.(canJump := value)
    ensures id == CanSelfDestructId ==> r == s.(canSelfDestruct := value)
    ensures id == CanMorphToCircleId ==> r == s.(canMorphToCircle := value)
    ensures id == CanMorphToTriangleId ==> r == s.(canMorphToTriangle := value)
    ensures id == CanMorphToRectangleId ==> r == s.(canMorphToRectangle := value)
  {
    match id
    case 0 => s.(canMove := value)
    case 1 => s.(canJump := value)
    case 2 => s.(canSelfDestruct := value)
    case 3 => s.(canMorphToCircle := value)
    case 4 => s.(canMorphToTriangle := value)
    case 5 => s.(canMorphToRectangle := value)
    case _ => s
  }

  /** getBool over the switches and the ground-collider flag; unknown names read false. */
  function SwitchValue(s: Switches, enableGroundColliders: bool, name: string): bool {
    match name
    case "canMove" => s.canMove
    case "canJump" => s.canJump
    case "canSelfDestruct" => s.canSelfDestruct
    case "canMorphToCircle" => s.canMorphToCircle
    case "canMorphToTriangle" => s.canMorphToTriangle
    case "canMorphToRectangle" => s.canMorphToRectangle
    case "enableGroundColliders" => enableGroundColliders
    case _ => false
  }

  /**
   * Setting a known switch and reading it back by its name gives the value
   * set, and every other switch reads as before.
   */
  lemma SetThenGetSwitch(s: Switches, g: bool, id: int, value: bool, other: int)
    requires KnownSwitch(id) && KnownSwitch(other) && other != id
    ensures SwitchValue(SetSwitch(s, id, value), g, SwitchName(id)) == value
    ensures SwitchValue(SetSwitch(s, id, value), g, SwitchName(other)) == SwitchValue(s, g, SwitchName(other))
  {
  }

  /** Names getBool does not know read false whatever the settings are. */
  lemma UnknownSwitchReadsFalse(s: Switches, g: bool, name: string)
    requires name !in {"canMove", "canJump", "canSelfDestruct", "canMorphToCircle",
                      "canMorphToTriangle", "canMorphToRectangle", "enableGroundColliders"}
    ensures !SwitchValue(s, g, name)
  {
  }

  /** A setting forwarded to the player manager. */
  datatype Forward = Forward(id: int, value: bool)

  class LevelSettings {
    var levelID: int
    var switches: Switches
    var worldSpawn: Vec2
    var playerSpawn: Vec2
    var enableGroundColliders: bool

    /** The serialized defaults: level 1, every switch on, no ground colliders; the spawns as placed. */
    constructor (worldSpawnPlaced: Vec2, playerSpawnPlaced: Vec2)
      ensures levelID == 1 && switches == Switches(true, true, true, true, true, true)
      ensures worldSpawn == worldSpawnPlaced && playerSpawn == playerSpawnPlaced && !enableGroundColliders
    {
      levelID := 1;
      switches := Switches(true, true, true, true, true, true);
      worldSpawn := worldSpawnPlaced;
      playerSpawn := playerSpawnPlaced;
      enableGroundColliders := false;
    }

    /**
     * Start: both spawns become the player's position on entry. The result says
     * whether the ground prefabs' colliders are switched on.
     */
    method Start(playerLocalPosition: Vec2) returns (enablesColliders: bool)
      modifies this`worldSpawn, this`playerSpawn
      ensures worldSpawn == playerLocalPosition && playerSpawn == playerLocalPosition
      ensures enablesColliders == enableGroundColliders
    {
      worldSpawn := playerLocalPosition;
      playerSpawn := playerLocalPosition;
      enablesColliders := enableGroundColliders;
    }

    /** setSetting(int, bool): a known id sets its switch and is forwarded to the player manager. */
    method SetSwitchSetting(name: int, value: bool) returns (forwarded: seq<Forward>)
      modifies this`switches
      ensures switches == SetSwitch(old(switches), name, value)
      ensures forwarded == if KnownSwitch(name) then [Forward(name, value)] else []
      ensures KnownSwitch(name) ==> GetBool(SwitchName(name)) == value
    {
      forwarded := [Forward(name, value)];
      match name {
        case 0 => switches := switches.(canMove := value);
        case 1 => switches := switches.(canJump := value);
        case 2 => switches := switches.(canSelfDestruct := value);
        case 3 => switches := switches.(canMorphToCircle := value);
        case 4 => switches := switches.(canMorphToTriangle := value);
        case 5 => switches := switches.(canMorphToRectangle := value);
        case _ => forwarded := [];
      }
      if KnownSwitch(name) {
        SetThenGetSwitch(old(switches), enableGroundColliders, name, value, if name == 0 then 1 else 0);
      }
    }

    /** setSetting(string, Vector2): only "worldSpawn" and "playerSpawn" are known. */
    method SetVectorSetting(name: string, pos: Vec2)
      modifies this`worldSpawn, this`playerSpawn
      ensures worldSpawn == if name == "worldSpawn" then pos else old(worldSpawn)
      ensures playerSpawn == if name == "playerSpawn" then pos else old(playerSpawn)
      ensures name == "worldSpawn" || name == "playerSpawn" ==> GetVector2(name) == pos
    {
      match name {
        case "worldSpawn" => worldSpawn := pos;
        case "playerSpawn" => playerSpawn := pos;
        case _ =>
      }
    }

    /** getInt: only "levelID" is known, anything else reads 0. */
    function GetInt(name: string): (r: int)
      reads this
      ensures name == "levelID" ==> r == levelID
      ensures name != "levelID" ==> r == 0
    {
      if name == "levelID" then levelID else 0
    }

    /** getBool: each of the seven names reads its own flag, and any other name reads false. */
    function GetBool(name: string): (r: bool)
      reads this
      ensures r ==> name in {"canMove", "canJump", "canSelfDestruct", "canMorphToCircle",
                             "canMorphToTriangle", "canMorphToRectangle", "enableGroundColliders"}
      ensures name == "canMove" ==> r == switches.canMove
      ensures name == "canJump" ==> r == switches.canJump
      ensures name == "canSelfDestruct" ==> r == switches.canSelfDestruct
      ensures name == "canMorphToCircle" ==> r == switches.canMorphToCircle
      ensures name == "canMorphToTriangle" ==> r == switches.canMorphToTriangle
      ensures name == "canMorphToRectangle" ==> r == switches.canMorphToRectangle
      ensures name == "enableGroundColliders" ==> r == enableGroundColliders
    {
      SwitchValue(switches, enableGroundColliders, name)
    }

    /** getVector2: unknown names read the zero vector. */
    function GetVector2(name: string): (r: Vec2)
      reads this
      ensures name == "worldSpawn" ==> r == worldSpawn
      ensures name == "playerSpawn" ==> r == playerSpawn
      ensures name != "worldSpawn" && name != "playerSpawn" ==> r == Zero
    {
      match name
      case "worldSpawn" => worldSpawn
      case "playerSpawn" => playerSpawn
      case _ => Zero
    }
  }

}
