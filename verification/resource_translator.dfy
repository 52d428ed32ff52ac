/**
 * Common's ResourceTranslator: a resource type and name are translated to a
 * file path through static per-type tables; unlisted models and volumes fall
 * back to a path built from the name, and anything else is an unknown resource.
 */
module ResourceTranslator {
  import opened Wrappers

  type Table = seq<(string, string)>

  const MODELS: Table := [
    ("Aqueduct1", "assets/models/Aqueduct1.btx"),
    ("AqueducttEnd1", "assets/models/AqueducttEnd1.btx"),
    ("Arrow", "assets/models/Arrow.btx"),
    ("Arrow1", "assets/models/Arrow1.btx"),
    ("Barrel1", "assets/models/Barrel1.btx"),
    ("Checkpoint1", "assets/models/Checkpoint.btx"),
    ("Crate1", "assets/models/Crate1.btx"),
    ("Grass1", "assets/models/Grass1.btx"),
    ("House1", "assets/models/house1.btx"),
    ("House2", "assets/models/house2.btx"),
    ("House3", "assets/models/house3.btx"),
    ("House4", "assets/models/house4.btx"),
    ("House5", "assets/models/house5.btx"),
    ("House6", "assets/models/house6.btx"),
    ("MarketStand1", "assets/models/MarketStand1.btx"),
    ("MarketStand2", "assets/models/MarketStand2.btx"),
    ("Road1", "assets/models/Road1.btx"),
    ("Road2", "assets/models/Road2.btx"),
    ("Road3", "assets/models/Road3.btx"),
    ("Road4", "assets/models/Road4.btx"),
    ("Road5", "assets/models/Road5.btx"),
    ("Sidewalk1", "assets/models/Sidewalk1.btx"),
    ("Stair1", "assets/models/Stair1.btx"),
    ("Stallning1", "assets/models/Stallning1.btx"),
    ("Stallning2", "assets/models/Stallning2.btx"),
    ("Stallning3", "assets/models/Stallning3.btx"),
    ("Stallning4", "assets/models/Stallning4.btx"),
    ("StoneBrick1", "assets/models/StoneBrick1.btx"),
    ("StoneBrick2", "assets/models/StoneBrick2.btx"),
    ("Vege1", "assets/models/Vege1.btx"),
    ("Vege2", "assets/models/Vege2.btx"),
    ("Street1", "assets/models/Street1.btx"),
    ("Tree1", "assets/models/Tree1.btx"),
    ("WITCH", "assets/models/Dzala.btx"),
    ("WoodenShed1", "assets/models/WoodenShed.btx"),
    ("Zane", "assets/models/ZaneFirewind.btx")
  ]

  const VOLUMES: Table := [
    ("Barrel1", "assets/volumes/CB_Barrel1.txc"),
    ("Crate1", "assets/volumes/CB_Crate1.txc"),
    ("Grass1", "assets/volumes/temp/CB_Grass1.txc"),
    ("House1", "assets/volumes/CB_House1.txc"),
    ("House2", "assets/volumes/CB_House2.txc"),
    ("House3", "assets/volumes/CB_House3.txc"),
    ("House4", "assets/volumes/CB_House4.txc"),
    ("House5", "assets/volumes/CB_House5.txc"),
    ("House6", "assets/volumes/CB_House6.txc"),
    ("MarketStand1", "assets/volumes/CB_MarketStand1.txc"),
    ("MarketStand2", "assets/volumes/CB_MarketStand2.txc"),
    ("Road1", "assets/volumes/CB_Road1.txc"),
    ("Road2", "assets/volumes/CB_Road2.txc"),
    ("Road3", "assets/volumes/CB_Road3.txc"),
    ("Road4", "assets/volumes/CB_Road4.txc"),
    ("Road5", "assets/volumes/CB_Road5.txc"),
    ("Sidewalk1", "assets/volumes/CB_Sidewalk1.txc"),
    ("Stair1", "assets/volumes/CB_Stair1.txc"),
    ("Stallning1", "assets/volumes/CB_Stallning1.txc"),
    ("Stallning2", "assets/volumes/CB_Stallning2.txc"),
    ("Stallning3", "assets/volumes/CB_Stallning3.txc"),
    ("Stallning4", "assets/volumes/CB_Stallning4.txc"),
    ("StoneBrick2", "assets/volumes/CB_StoneBrick2.txc"),
    ("Street1", "assets/volumes/CB_Street1.txc"),
    ("Tree1", "assets/volumes/CB_Tree1.txc"),
    ("Vege1", "assets/volumes/temp/CB_Vege1.txc"),
    ("Vege2", "assets/volumes/temp/CB_Vege2.txc"),
    ("WoodenShed1", "assets/volumes/CB_WoodenShed1.txc")
  ]

  const TEXTURES: Table := [
    ("TEXTURE_NOT_FOUND", "assets/textures/TextureNotFound_COLOR.dds"),
    ("MANA_BAR", "assets/textures/manabar.dds"),
    ("SKYBOXDDS", "assets/textures/Skybox1_COLOR.dds"),
    ("Particle1", "assets/textures/Particle1.dds")
  ]

  const SOUNDS: Table := [("Background", "assets/sounds/Mainbackground.mp3")]
  const PARTICLES: Table := [("fire", "assets/particles/fire.xml")]
  const SPELLS: Table := [("TestSpell", "assets/spells/TestSpell.xml")]
  const ANIMATIONS: Table := [("WITCH", "assets/animations/Dzala.atx")]

  /** The tables by resource type, in the order they are searched. */
  const RESOURCE_MAPS: seq<(string, Table)> := [
    ("model", MODELS), ("texture", TEXTURES), ("volume", VOLUMES), ("sound", SOUNDS),
    ("particleSystem", PARTICLES), ("spell", SPELLS), ("animation", ANIMATIONS)
  ]

  /** The path of the first entry named `name`. */
  function Lookup(t: Table, name: string): (r: Option<string>)
    ensures r.None? <==> forall i :: 0 <= i < |t| ==> t[i].0 != name
    ensures r.Some? ==> exists i :: 0 <= i < |t| && t[i] == (name, r.value) && forall k :: 0 <= k < i ==> t[k].0 != name
  {
    if t == [] then None
    else if t[0].0 == name then Some(t[0].1)
    else
      var r := Lookup(t[1..], name);
      assert forall i :: 0 < i < |t| ==> t[i] == t[1..][i - 1];
      r
  }

  /** The outer loop: the first type's table that lists the name decides. */
  function LookupTyped(maps: seq<(string, Table)>, kind: string, name: string): (r: Option<string>)
    ensures r.None? <==> forall j :: 0 <= j < |maps| && maps[j].0 == kind ==> Lookup(maps[j].1, name).None?
    ensures r.Some? ==> exists j :: 0 <= j < |maps| && maps[j].0 == kind && r == Lookup(maps[j].1, name)
  {
    if maps == [] then None
    else if maps[0].0 == kind && Lookup(maps[0].1, name).Some? then Lookup(maps[0].1, name)
    else
      var r := LookupTyped(maps[1..], kind, name);
      assert forall j :: 0 < j < |maps| ==> maps[j] == maps[1..][j - 1];
      r
  }

  /** `translate`: `None` stands for the ResourceManagerException it throws for an unknown resource. */
  function Translate(kind: string, name: string): (r: Option<string>)
  {
    match LookupTyped(RESOURCE_MAPS, kind, name)
    case Some(path) => Some(path)
    case None => Fallback(kind, name)
  }

  /** The paths built from the name when no table lists it. */
  function Fallback(kind: string, name: string): Option<string>
  {
    if kind == "model" then Some("assets/models/" + name + ".btx")
    else if kind == "volume" then Some("assets/volumes/CB_" + name + ".txc")
    else None
  }

  /** The table of the first entry of type `kind`, empty when no entry has that type. */
  function TypeTable(maps: seq<(string, Table)>, kind: string): (r: Table)
    ensures (forall j :: 0 <= j < |maps| ==> maps[j].0 != kind) ==> r == []
  {
    if maps == [] then []
    else if maps[0].0 == kind then maps[0].1
    else TypeTable(maps[1..], kind)
  }

  predicate DistinctTypes(maps: seq<(string, Table)>)
  {
    forall i, j :: 0 <= i < j < |maps| ==> maps[i].0 != maps[j].0
  }

  /** With every type listed once, the outer loop searches exactly the type's own table. */
  lemma {:induction false} LookupTypedIsTypeTable(maps: seq<(string, Table)>, kind: string, name: string)
    requires DistinctTypes(maps)
    ensures LookupTyped(maps, kind, name) == Lookup(TypeTable(maps, kind), name)
  {
    if maps != [] {
      assert DistinctTypes(maps[1..]) by {
        assert forall j :: 0 <= j < |maps[1..]| ==> maps[1..][j] == maps[j + 1];
      }
      LookupTypedIsTypeTable(maps[1..], kind, name);
      if maps[0].0 == kind {
        assert forall j :: 0 <= j < |maps[1..]| ==> maps[1..][j].0 != kind by {
          assert forall j :: 0 <= j < |maps[1..]| ==> maps[1..][j] == maps[j + 1];
        }
      }
    }
  }

  lemma ResourceMapTypesDistinct()
    ensures DistinctTypes(RESOURCE_MAPS)
  {
  }

  /**
   * `translate` over the type's own table: a listed name gives the path of its
   * first entry; an unlisted model or volume gets the fallback path; anything
   * else is an unknown resource.
   */
  lemma TranslateByTable(kind: string, name: string)
    ensures Lookup(TypeTable(RESOURCE_MAPS, kind), name).Some? ==> Translate(kind, name) == Lookup(TypeTable(RESOURCE_MAPS, kind), name)
    ensures Lookup(TypeTable(RESOURCE_MAPS, kind), name).None? ==> Translate(kind, name) == Fallback(kind, name)
  {
    ResourceMapTypesDistinct();
    LookupTypedIsTypeTable(RESOURCE_MAPS, kind, name);
  }

  /** The entry at `i` is the first one named `name`, so its path is the one found. */
  lemma LookupFirst(t: Table, name: string, i: nat)
    requires i < |t| && t[i].0 == name && forall k :: 0 <= k < i ==> t[k].0 != name
    ensures Lookup(t, name) == Some(t[i].1)
  {
    var j :| 0 <= j < |t| && t[j] == (name, Lookup(t, name).value) && forall k :: 0 <= k < j ==> t[k].0 != name;
    assert j == i;
  }

  /**
   * A table entry wins over the fallback: the witch model is
   * "assets/models/Dzala.btx", not "assets/models/WITCH.btx".
   */
  lemma WitchModel(name: string)
    requires name == "WITCH"
    ensures Translate("model", name) == Some("assets/models/Dzala.btx")
  {
    TranslateByTable("model", name);
    WitchEntry();
    LookupFirst(MODELS, name, 33);
  }

  lemma WitchEntry()
    ensures MODELS[33] == ("WITCH", "assets/models/Dzala.btx")
    ensures forall k :: 0 <= k < 33 ==> MODELS[k].0 != "WITCH"
  {
  }
}
