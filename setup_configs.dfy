/** The game types a client may ask to create, and what they convert to (src/handlers/instance_setup_configs.rs). */
module SetupConfigs {

  datatype HandlerGameType = MinecraftJavaVanilla | MinecraftFabric | MinecraftForge | MinecraftPaper

  /** The game family recorded in an instance's dot-config. */
  datatype GameType = MinecraftJava | Generic

  /** The flavour a setup manifest is built for. */
  datatype FlavourKind = Vanilla | Fabric | Forge | Paper

  function ToGameType(g: HandlerGameType): (t: GameType)
    ensures t == MinecraftJava
  {
    match g
    case MinecraftJavaVanilla => MinecraftJava
    case MinecraftFabric => MinecraftJava
    case MinecraftForge => MinecraftJava
    case MinecraftPaper => MinecraftJava
  }

  function ToFlavourKind(g: HandlerGameType): (k: FlavourKind)
    ensures k == Vanilla <==> g == MinecraftJavaVanilla
    ensures k == Fabric <==> g == MinecraftFabric
    ensures k == Forge <==> g == MinecraftForge
    ensures k == Paper <==> g == MinecraftPaper
  {
    match g
    case MinecraftJavaVanilla => Vanilla
    case MinecraftFabric => Fabric
    case MinecraftForge => Forge
    case MinecraftPaper => Paper
  }

  /** Every flavour kind comes from exactly one handler game type. */
  lemma FlavourKindBijective(k: FlavourKind)
    ensures exists g :: ToFlavourKind(g) == k
    ensures forall g1, g2 :: ToFlavourKind(g1) == k && ToFlavourKind(g2) == k ==> g1 == g2
  {
    var g := match k
      case Vanilla => MinecraftJavaVanilla
      case Fabric => MinecraftFabric
      case Forge => MinecraftForge
      case Paper => MinecraftPaper;
    assert ToFlavourKind(g) == k;
  }

  /**
   * The flavour chosen inline by the create handler, written separately from the
   * `From` conversion in the source (src/handlers/instance.rs:89-94).
   */
  function CreateHandlerFlavour(g: HandlerGameType): (k: FlavourKind)
    ensures k == ToFlavourKind(g)
  {
    match g
    case MinecraftJavaVanilla => Vanilla
    case MinecraftForge => Forge
    case MinecraftFabric => Fabric
    case MinecraftPaper => Paper
  }

  /** The list of game types offered to clients. */
  function AvailableGames(): (games: seq<HandlerGameType>)
    ensures |games| == 4
    ensures forall g :: g in games
    ensures forall i, j :: 0 <= i < j < |games| ==> games[i] != games[j]
  {
    var games := [MinecraftJavaVanilla, MinecraftFabric, MinecraftForge, MinecraftPaper];
    assert forall g :: g in games by {
      forall g ensures g in games {
        var i := match g
          case MinecraftJavaVanilla => 0
          case MinecraftFabric => 1
          case MinecraftForge => 2
          case MinecraftPaper => 3;
        assert games[i] == g;
      }
    }
    games
  }
}
