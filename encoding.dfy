/**
  The categorical encoder of the form: one lookup function with a silent
  default, and the four fixed tables that turn the labels offered by the
  radio buttons and select boxes into integer codes.
*/
module Encoding {

  /** A widget answer is the label string the widget returns. */
  type Label = string

  /**
    Looks `valor` up in `mapa`; a label that is not a key of the table is
    encoded as 0 instead of being rejected.
  */
  function Codificar(valor: Label, mapa: map<Label, int>): (r: int)
    ensures valor in mapa ==> r == mapa[valor]
    ensures valor !in mapa ==> r == 0
  {
    if valor in mapa then mapa[valor] else 0
  }

  // The option lists of the widgets, in the order the widgets show them.
  const GeneroOptions: seq<Label> := ["Masculino", "Femenino"]
  const EtniaOptions: seq<Label> := ["Caucásico", "Afroamericano", "Asiático", "Otros"]
  const EducacionOptions: seq<Label> := ["Ninguno", "Escuela secundaria", "Licenciatura", "Superior"]
  const BinarioOptions: seq<Label> := ["No", "Sí"]

  // The encoding tables.
  const GeneroMap: map<Label, int> := map["Masculino" := 0, "Femenino" := 1]
  const EtniaMap: map<Label, int> := map["Caucásico" := 0, "Afroamericano" := 1, "Asiático" := 2, "Otros" := 3]
  const EducacionMap: map<Label, int> := map["Ninguno" := 0, "Escuela secundaria" := 1, "Licenciatura" := 2, "Superior" := 3]
  const BinarioMap: map<Label, int> := map["No" := 0, "Sí" := 1]

  /**
    The table `t` gives each option the index at which the widget shows it,
    and has no other keys.
  */
  predicate CodesAreIndices(options: seq<Label>, t: map<Label, int>) {
    (forall i :: 0 <= i < |options| ==> options[i] in t && t[options[i]] == i)
    && (forall v :: v in t ==> v in options)
  }

  /** Each of the four tables encodes the widget option at index i as i. */
  lemma TablesMatchWidgets()
    ensures CodesAreIndices(GeneroOptions, GeneroMap)
    ensures CodesAreIndices(EtniaOptions, EtniaMap)
    ensures CodesAreIndices(EducacionOptions, EducacionMap)
    ensures CodesAreIndices(BinarioOptions, BinarioMap)
  {
  }

  /** Whatever the answer, known or not, its code is a valid option index. */
  lemma CodeInRange(options: seq<Label>, t: map<Label, int>, v: Label)
    requires CodesAreIndices(options, t) && |options| > 0
    ensures 0 <= Codificar(v, t) < |options|
  {
    if v in t {
      var i :| 0 <= i < |options| && options[i] == v;
      assert t[v] == i;
    }
  }

  /** Decoding the code of an offered option by indexing the option list gives the option back. */
  lemma EncodeDecode(options: seq<Label>, t: map<Label, int>, v: Label)
    requires CodesAreIndices(options, t) && v in options
    ensures 0 <= Codificar(v, t) < |options| && options[Codificar(v, t)] == v
  {
    var i :| 0 <= i < |options| && options[i] == v;
    assert t[v] == i;
  }

  /** The option at index i is encoded as i. */
  lemma DecodeEncode(options: seq<Label>, t: map<Label, int>, i: int)
    requires CodesAreIndices(options, t) && 0 <= i < |options|
    ensures Codificar(options[i], t) == i
  {
  }

  /** On offered options the encoding is injective. */
  lemma CodesInjective(options: seq<Label>, t: map<Label, int>, v: Label, w: Label)
    requires CodesAreIndices(options, t) && v in options && w in options
    ensures Codificar(v, t) == Codificar(w, t) <==> v == w
  {
    EncodeDecode(options, t, v);
    EncodeDecode(options, t, w);
  }

  /**
    An answer that is not one of the options gets the code of the first
    option: the silent default makes it indistinguishable from that option.
  */
  lemma UnknownLooksLikeFirst(options: seq<Label>, t: map<Label, int>, v: Label)
    requires CodesAreIndices(options, t) && |options| > 0 && v !in options
    ensures Codificar(v, t) == Codificar(options[0], t) == 0
  {
  }

  /** Concretely: an unknown label and "Masculino" get the same gender code. */
  lemma UnknownGenderIsMasculino()
    ensures Codificar("", GeneroMap) == Codificar("Masculino", GeneroMap) == 0
    ensures Codificar("masculino", GeneroMap) == 0 && Codificar("Femenino", GeneroMap) == 1
  {
  }

  /** Every yes/no answer, recognised or not, is encoded as 0 or 1. */
  lemma BinaryCodeIsBit(v: Label)
    ensures 0 <= Codificar(v, BinarioMap) <= 1
  {
    TablesMatchWidgets();
    CodeInRange(BinarioOptions, BinarioMap, v);
  }

  /** Only the exact label "Sí" is encoded as 1; "No" and every other string become 0. */
  lemma OnlySiIsOne(v: Label)
    ensures Codificar(v, BinarioMap) == 1 <==> v == "Sí"
    ensures Codificar("Si", BinarioMap) == 0 && Codificar("sí", BinarioMap) == 0
  {
  }

  /** The code of any answer, through any of the four tables, is an index of that table's widget options. */
  lemma TableCodesInRange(v: Label)
    ensures 0 <= Codificar(v, GeneroMap) < |GeneroOptions|
    ensures 0 <= Codificar(v, EtniaMap) < |EtniaOptions|
    ensures 0 <= Codificar(v, EducacionMap) < |EducacionOptions|
    ensures 0 <= Codificar(v, BinarioMap) < |BinarioOptions|
  {
    TablesMatchWidgets();
    CodeInRange(GeneroOptions, GeneroMap, v);
    CodeInRange(EtniaOptions, EtniaMap, v);
    CodeInRange(EducacionOptions, EducacionMap, v);
    CodeInRange(BinarioOptions, BinarioMap, v);
  }
}
