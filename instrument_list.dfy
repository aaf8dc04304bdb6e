/** `InstrumentList` (src/components/InstrumentList.tsx): the static catalogue of the
    wind instruments supported for transcription, split into its two families,
    and the icons and labels each card shows. */
module InstrumentList {
  import Seqs

  datatype Family = VientoMadera | VientoMetal {
    function Code(): string {
      match this
      case VientoMadera => "VIENTO_MADERA"
      case VientoMetal => "VIENTO_METAL"
    }
  }

  datatype Tuning = Bb | Eb | F | C | G | D | A | E

  datatype Clef = Sol | Fa {
    function Code(): string {
      match this
      case Sol => "SOL"
      case Fa => "FA"
    }
  }

  datatype WindInstrument = WindInstrument(
    id: string, name: string, family: Family, afinacion: Tuning, clef: Clef, range: string, description: string)

  /** `WIND_INSTRUMENTS`: thirteen woodwinds, then ten brass instruments. */
  const WoodwindEntries: seq<WindInstrument> := [
    WindInstrument("piccolo", "Piccolo", VientoMadera, C, Sol, "D5-C8", "Pequeña flauta aguda, suena una octava más alta"),
    WindInstrument("flute", "Flauta", VientoMadera, C, Sol, "C4-D7", "Instrumento melódico principal en Do"),
    WindInstrument("oboe", "Oboe", VientoMadera, C, Sol, "Bb3-A6", "Instrumento de doble caña en Do"),
    WindInstrument("english-horn", "Corno Inglés", VientoMadera, F, Sol, "E3-C6", "Oboe contralto en Fa, suena una quinta más grave"),
    WindInstrument("clarinet-eb", "Clarinete en Eb", VientoMadera, Eb, Sol, "G3-C7", "Clarinete agudo en Mi bemol"),
    WindInstrument("clarinet-bb", "Clarinete en Bb", VientoMadera, Bb, Sol, "D3-Bb6", "Clarinete soprano principal en Si bemol"),
    WindInstrument("clarinet-a", "Clarinete en A", VientoMadera, A, Sol, "Db3-A6", "Clarinete soprano en La"),
    WindInstrument("bass-clarinet", "Clarinete Bajo", VientoMadera, Bb, Sol, "D2-F5", "Clarinete bajo en Si bemol, suena una octava más grave"),
    WindInstrument("bassoon", "Fagot", VientoMadera, C, Fa, "Bb1-Eb5", "Instrumento grave de doble caña en Do"),
    WindInstrument("contrabassoon", "Contrafagot", VientoMadera, C, Fa, "Bb0-Bb3", "Fagot contrabajo, suena una octava más grave"),
    WindInstrument("alto-sax", "Saxofón Alto", VientoMadera, Eb, Sol, "Db3-A5", "Saxofón alto en Mi bemol"),
    WindInstrument("tenor-sax", "Saxofón Tenor", VientoMadera, Bb, Sol, "Ab2-E5", "Saxofón tenor en Si bemol"),
    WindInstrument("baritone-sax", "Saxofón Barítono", VientoMadera, Eb, Sol, "Db2-A4", "Saxofón barítono en Mi bemol")
  ]

  const BrassEntries: seq<WindInstrument> := [
    WindInstrument("trumpet-bb", "Trompeta en Bb", VientoMetal, Bb, Sol, "E3-C6", "Trompeta soprano principal en Si bemol"),
    WindInstrument("trumpet-c", "Trompeta en C", VientoMetal, C, Sol, "E3-C6", "Trompeta soprano en Do"),
    WindInstrument("cornet", "Corneta", VientoMetal, Bb, Sol, "E3-C6", "Corneta en Si bemol, más cálida que la trompeta"),
    WindInstrument("flugelhorn", "Fliscorno", VientoMetal, Bb, Sol, "E3-C6", "Fliscorno en Si bemol, sonido muy cálido"),
    WindInstrument("french-horn", "Trompa", VientoMetal, F, Sol, "B2-C6", "Trompa en Fa, puede usar clave de Fa en registro grave"),
    WindInstrument("trombone", "Trombón", VientoMetal, C, Fa, "E2-F5", "Trombón de varas en Do"),
    WindInstrument("bass-trombone", "Trombón Bajo", VientoMetal, C, Fa, "C2-F5", "Trombón bajo con gatillo"),
    WindInstrument("euphonium", "Eufonio", VientoMetal, C, Fa, "E2-C5", "Eufonio barítono en Do"),
    WindInstrument("tuba", "Tuba", VientoMetal, C, Fa, "D1-F4", "Tuba contrabajo en Do"),
    WindInstrument("tuba-bb", "Tuba en Bb", VientoMetal, Bb, Fa, "C1-Eb4", "Tuba contrabajo en Si bemol")
  ]

  const WindInstruments: seq<WindInstrument> := WoodwindEntries + BrassEntries

  /** `inst => inst.family === family`; the family codes are distinct, so comparing them is
      comparing the families. */
  function FamilyIs(family: Family): WindInstrument -> bool {
    (inst: WindInstrument) => inst.family == family
  }

  /** `woodwinds` and `brass`: the catalogue filtered by family, in catalogue order. */
  function Woodwinds(): seq<WindInstrument> {
    Seqs.Filter(WindInstruments, FamilyIs(VientoMadera))
  }

  function Brass(): seq<WindInstrument> {
    Seqs.Filter(WindInstruments, FamilyIs(VientoMetal))
  }

  lemma WoodwindBlockFamilies()
    ensures forall i :: 0 <= i < |WoodwindEntries| ==> WoodwindEntries[i].family == VientoMadera
  {
  }

  lemma BrassBlockFamilies()
    ensures forall i :: 0 <= i < |BrassEntries| ==> BrassEntries[i].family == VientoMetal
  {
  }

  /** The woodwinds are exactly the first block of the catalogue, the thirteen entries from
      the piccolo to the baritone saxophone, so their heading counts 13 instruments. */
  lemma WoodwindsAreFirstBlock()
    ensures Woodwinds() == WoodwindEntries && |Woodwinds()| == 13
  {
    WoodwindBlockFamilies();
    BrassBlockFamilies();
    Seqs.FilterFirstBlock(WoodwindEntries, BrassEntries, FamilyIs(VientoMadera));
  }

  /** The brass are exactly the second block, the ten entries from the B-flat trumpet to the
      B-flat tuba, so their heading counts 10 instruments. */
  lemma BrassIsSecondBlock()
    ensures Brass() == BrassEntries && |Brass()| == 10
  {
    WoodwindBlockFamilies();
    BrassBlockFamilies();
    Seqs.FilterSecondBlock(WoodwindEntries, BrassEntries, FamilyIs(VientoMetal));
  }

  /** Every catalogue entry is listed in exactly one of the two sections. */
  lemma EachInstrumentInOneSection(inst: WindInstrument)
    requires inst in WindInstruments
    ensures inst in Woodwinds() <==> inst !in Brass()
  {
    Seqs.FilterMembership(WindInstruments, FamilyIs(VientoMadera), inst);
    Seqs.FilterMembership(WindInstruments, FamilyIs(VientoMetal), inst);
  }

  lemma WoodwindIdsDistinct()
    ensures forall i, j :: 0 <= i < j < |WoodwindEntries| ==> WoodwindEntries[i].id != WoodwindEntries[j].id
  {
  }

  lemma BrassIdsDistinct()
    ensures forall i, j :: 0 <= i < j < |BrassEntries| ==> BrassEntries[i].id != BrassEntries[j].id
  {
  }

  lemma BlockIdsDisjoint()
    ensures forall i, j :: 0 <= i < |WoodwindEntries| && 0 <= j < |BrassEntries| ==> WoodwindEntries[i].id != BrassEntries[j].id
  {
  }

  /** The ids the cards use as keys are pairwise distinct. */
  lemma IdsDistinct()
    ensures forall i, j :: 0 <= i < j < |WindInstruments| ==> WindInstruments[i].id != WindInstruments[j].id
  {
    WoodwindIdsDistinct();
    BrassIdsDistinct();
    BlockIdsDisjoint();
    var n := |WoodwindEntries|;
    forall i, j | 0 <= i < j < |WindInstruments|
      ensures WindInstruments[i].id != WindInstruments[j].id
    {
      if j < n {
        assert WindInstruments[i] == WoodwindEntries[i] && WindInstruments[j] == WoodwindEntries[j];
      } else if i < n {
        assert WindInstruments[i] == WoodwindEntries[i] && WindInstruments[j] == BrassEntries[j - n];
      } else {
        assert WindInstruments[i] == BrassEntries[i - n] && WindInstruments[j] == BrassEntries[j - n];
      }
    }
  }

  const TrebleClef := "\U{1D11E}"
  const BassClef := "\U{1D122}"

  /** `getClefIcon`: the treble clef for `SOL`, the bass clef for anything else. */
  function ClefIcon(clef: string): (icon: string)
    ensures icon == TrebleClef <==> clef == "SOL"
    ensures icon == BassClef <==> clef != "SOL"
  {
    if clef == "SOL" then TrebleClef else BassClef
  }

  /** The clef's caption next to the icon. */
  function ClefLabel(clef: Clef): (text: string)
    ensures text == "Clave de Sol" <==> clef == Sol
    ensures text == "Clave de Fa" <==> clef == Fa
  {
    if clef.Code() == "SOL" then "Clave de Sol" else "Clave de Fa"
  }

  /** Icon and caption agree on every card: the treble clef goes with "Clave de Sol". */
  lemma ClefIconMatchesLabel(clef: Clef)
    ensures ClefIcon(clef.Code()) == TrebleClef <==> ClefLabel(clef) == "Clave de Sol"
  {
  }

  const WoodwindIcon := "\U{1F3BC}"
  const BrassIcon := "\U{1F3BA}"

  /** `getFamilyIcon`: the score for `VIENTO_MADERA`, the trumpet for anything else. */
  function FamilyIcon(family: string): (icon: string)
    ensures icon == WoodwindIcon <==> family == "VIENTO_MADERA"
    ensures icon == BrassIcon <==> family != "VIENTO_MADERA"
  {
    if family == "VIENTO_MADERA" then WoodwindIcon else BrassIcon
  }
}
