/** Colour names in Portuguese and hexadecimal colour codes, as in
    frontend/src/utils/cores.ts: the name table `coresPortugues`, the
    converter `converterCor` and the validator `validarCor`. */
module Cores {
  import opened Common

  predicate IsHexDigit(c: char) {
    '0' <= c <= '9' || 'a' <= c <= 'f' || 'A' <= c <= 'F'
  }

  /** Matches `/^[0-9A-Fa-f]{6}$/`. */
  predicate IsBareHex(s: string) {
    |s| == 6 && forall i :: 0 <= i < 6 ==> IsHexDigit(s[i])
  }

  /** Matches `/^#[0-9A-Fa-f]{6}$/`. */
  predicate IsHexColor(s: string) {
    |s| == 7 && s[0] == '#' && IsBareHex(s[1..])
  }

  /** Matches `/^#?[0-9A-Fa-f]{6}$/`. */
  predicate IsHexWithOptionalHash(s: string) {
    IsBareHex(s) || IsHexColor(s)
  }

  type Entry = (string, string)

  // The table, in the source's order and groups.
  const Basic: seq<Entry> := [
    ("preto", "#000000"), ("branco", "#FFFFFF"), ("cinza", "#808080"),
    ("cinzento", "#808080"), ("vermelho", "#FF0000"), ("verde", "#00FF00"),
    ("azul", "#0000FF"), ("amarelo", "#FFFF00"), ("laranja", "#FFA500"),
    ("roxo", "#800080"), ("rosa", "#FFC0CB"), ("marrom", "#A52A2A"),
    ("castanho", "#A52A2A")]
  const Reds: seq<Entry> := [
    ("vermelho claro", "#FF6B6B"), ("vermelho escuro", "#8B0000"), ("coral", "#FF7F50"),
    ("carmim", "#DC143C"), ("bordô", "#800020"), ("vinho", "#722F37")]
  const Blues: seq<Entry> := [
    ("azul claro", "#ADD8E6"), ("azul escuro", "#00008B"), ("azul marinho", "#000080"),
    ("azul celeste", "#87CEEB"), ("turquesa", "#40E0D0"), ("ciano", "#00FFFF"),
    ("água", "#00FFFF")]
  const Greens: seq<Entry> := [
    ("verde claro", "#90EE90"), ("verde escuro", "#006400"), ("verde limão", "#32CD32"),
    ("verde oliva", "#808000"), ("verde menta", "#98FF98"), ("esmeralda", "#50C878")]
  const Yellows: seq<Entry> := [
    ("amarelo claro", "#FFFFE0"), ("amarelo ouro", "#FFD700"), ("dourado", "#FFD700"),
    ("bege", "#F5F5DC"), ("creme", "#FFFDD0")]
  const Purples: seq<Entry> := [
    ("roxo claro", "#DDA0DD"), ("roxo escuro", "#4B0082"), ("violeta", "#EE82EE"),
    ("lilás", "#C8A2C8"), ("púrpura", "#800080"), ("magenta", "#FF00FF"),
    ("lavanda", "#E6E6FA")]
  const Oranges: seq<Entry> := [
    ("laranja claro", "#FFB347"), ("laranja escuro", "#FF8C00"), ("pêssego", "#FFDAB9"),
    ("salmão", "#FA8072")]
  const Pinks: seq<Entry> := [
    ("rosa claro", "#FFB6C1"), ("rosa escuro", "#FF1493"), ("rosa pink", "#FF69B4"),
    ("pink", "#FF69B4"), ("fúcsia", "#FF00FF")]
  const Browns: seq<Entry> := [
    ("marrom claro", "#D2691E"), ("marrom escuro", "#654321"), ("chocolate", "#D2691E"),
    ("sépia", "#704214"), ("terracota", "#E2725B")]
  const Greys: seq<Entry> := [
    ("cinza claro", "#D3D3D3"), ("cinza escuro", "#A9A9A9"), ("prata", "#C0C0C0"),
    ("chumbo", "#71706E")]

  /** `coresPortugues`, as its own entries (inherited object keys such as
      "constructor" are not part of it). */
  const Table: seq<Entry> :=
    Basic + Reds + Blues + Greens + Yellows + Purples + Oranges + Pinks + Browns + Greys

  predicate AllHex(entries: seq<Entry>) {
    forall i :: 0 <= i < |entries| ==> IsHexColor(entries[i].1)
  }

  /** `name in table`. */
  predicate IsKey(entries: seq<Entry>, name: string) {
    exists i :: 0 <= i < |entries| && entries[i].0 == name
  }

  /** `table[name]`, `None` for a name the table does not hold. */
  function Lookup(entries: seq<Entry>, name: string): (r: Option<string>)
    ensures r.Some? <==> IsKey(entries, name)
    ensures r.Some? ==> exists i :: 0 <= i < |entries| && entries[i] == (name, r.value)
  {
    if entries == [] then None
    else if entries[0].0 == name then Some(entries[0].1)
    else
      var r := Lookup(entries[1..], name);
      assert forall i :: 1 <= i < |entries| ==> entries[i] == entries[1..][i - 1];
      r
  }

  /** Looking up in a table whose values are all hex colours yields a hex colour. */
  lemma {:induction false} LookupHex(entries: seq<Entry>, name: string)
    requires AllHex(entries)
    ensures Lookup(entries, name).Some? ==> IsHexColor(Lookup(entries, name).value)
  {
    if entries != [] && entries[0].0 != name {
      assert AllHex(entries[1..]) by {
        forall i | 0 <= i < |entries[1..]| ensures IsHexColor(entries[1..][i].1) {
          assert entries[1..][i] == entries[i + 1];
        }
      }
      LookupHex(entries[1..], name);
    }
  }

  lemma AllHexAppend(a: seq<Entry>, b: seq<Entry>)
    requires AllHex(a) && AllHex(b)
    ensures AllHex(a + b)
  {
    forall i | 0 <= i < |a + b| ensures IsHexColor((a + b)[i].1) {
      if i < |a| { assert (a + b)[i] == a[i]; } else { assert (a + b)[i] == b[i - |a|]; }
    }
  }

  lemma GroupsAreHex()
    ensures AllHex(Basic) && AllHex(Reds) && AllHex(Blues) && AllHex(Greens) && AllHex(Yellows)
    ensures AllHex(Purples) && AllHex(Oranges) && AllHex(Pinks) && AllHex(Browns) && AllHex(Greys)
  {
    BasicIsHex();
    RedsIsHex();
    BluesIsHex();
    GreensIsHex();
    YellowsIsHex();
    PurplesIsHex();
    OrangesIsHex();
    PinksIsHex();
    BrownsIsHex();
    GreysIsHex();
  }

  /** Every value of the table is `#` followed by six hexadecimal digits. */
  lemma TableIsHex()
    ensures AllHex(Table)
  {
    GroupsAreHex();
    AllHexAppend(Basic, Reds);
    AllHexAppend(Basic + Reds, Blues);
    AllHexAppend(Basic + Reds + Blues, Greens);
    AllHexAppend(Basic + Reds + Blues + Greens, Yellows);
    AllHexAppend(Basic + Reds + Blues + Greens + Yellows, Purples);
    AllHexAppend(Basic + Reds + Blues + Greens + Yellows + Purples, Oranges);
    AllHexAppend(Basic + Reds + Blues + Greens + Yellows + Purples + Oranges, Pinks);
    AllHexAppend(Basic + Reds + Blues + Greens + Yellows + Purples + Oranges + Pinks, Browns);
    AllHexAppend(Basic + Reds + Blues + Greens + Yellows + Purples + Oranges + Pinks + Browns, Greys);
  }

  lemma BasicIsHex() ensures AllHex(Basic) {
    forall i | 0 <= i < |Basic| ensures IsHexColor(Basic[i].1) {
      var v := Basic[i].1;
      assert |v| == 7 && v[0] == '#';
      assert forall k :: 1 <= k < 7 ==> IsHexDigit(v[k]);
      assert forall k :: 0 <= k < 6 ==> v[1..][k] == v[k + 1];
    }
  }

  lemma RedsIsHex() ensures AllHex(Reds) {
    forall i | 0 <= i < |Reds| ensures IsHexColor(Reds[i].1) {
      var v := Reds[i].1;
      assert |v| == 7 && v[0] == '#';
      assert forall k :: 1 <= k < 7 ==> IsHexDigit(v[k]);
      assert forall k :: 0 <= k < 6 ==> v[1..][k] == v[k + 1];
    }
  }

  lemma BluesIsHex() ensures AllHex(Blues) {
    forall i | 0 <= i < |Blues| ensures IsHexColor(Blues[i].1) {
      var v := Blues[i].1;
      assert |v| == 7 && v[0] == '#';
      assert forall k :: 1 <= k < 7 ==> IsHexDigit(v[k]);
      assert forall k :: 0 <= k < 6 ==> v[1..][k] == v[k + 1];
    }
  }

  lemma GreensIsHex() ensures AllHex(Greens) {
    forall i | 0 <= i < |Greens| ensures IsHexColor(Greens[i].1) {
      var v := Greens[i].1;
      assert |v| == 7 && v[0] == '#';
      assert forall k :: 1 <= k < 7 ==> IsHexDigit(v[k]);
      assert forall k :: 0 <= k < 6 ==> v[1..][k] == v[k + 1];
    }
  }

  lemma YellowsIsHex() ensures AllHex(Yellows) {
    forall i | 0 <= i < |Yellows| ensures IsHexColor(Yellows[i].1) {
      var v := Yellows[i].1;
      assert |v| == 7 && v[0] == '#';
      assert forall k :: 1 <= k < 7 ==> IsHexDigit(v[k]);
      assert forall k :: 0 <= k < 6 ==> v[1..][k] == v[k + 1];
    }
  }

  lemma PurplesIsHex() ensures AllHex(Purples) {
    forall i | 0 <= i < |Purples| ensures IsHexColor(Purples[i].1) {
      var v := Purples[i].1;
      assert |v| == 7 && v[0] == '#';
      assert forall k :: 1 <= k < 7 ==> IsHexDigit(v[k]);
      assert forall k :: 0 <= k < 6 ==> v[1..][k] == v[k + 1];
    }
  }

  lemma OrangesIsHex() ensures AllHex(Oranges) {
    forall i | 0 <= i < |Oranges| ensures IsHexColor(Oranges[i].1) {
      var v := Oranges[i].1;
      assert |v| == 7 && v[0] == '#';
      assert forall k :: 1 <= k < 7 ==> IsHexDigit(v[k]);
      assert forall k :: 0 <= k < 6 ==> v[1..][k] == v[k + 1];
    }
  }

  lemma PinksIsHex() ensures AllHex(Pinks) {
    forall i | 0 <= i < |Pinks| ensures IsHexColor(Pinks[i].1) {
      var v := Pinks[i].1;
      assert |v| == 7 && v[0] == '#';
      assert forall k :: 1 <= k < 7 ==> IsHexDigit(v[k]);
      assert forall k :: 0 <= k < 6 ==> v[1..][k] == v[k + 1];
    }
  }

  lemma BrownsIsHex() ensures AllHex(Browns) {
    forall i | 0 <= i < |Browns| ensures IsHexColor(Browns[i].1) {
      var v := Browns[i].1;
      assert |v| == 7 && v[0] == '#';
      assert forall k :: 1 <= k < 7 ==> IsHexDigit(v[k]);
      assert forall k :: 0 <= k < 6 ==> v[1..][k] == v[k + 1];
    }
  }

  lemma GreysIsHex() ensures AllHex(Greys) {
    forall i | 0 <= i < |Greys| ensures IsHexColor(Greys[i].1) {
      var v := Greys[i].1;
      assert |v| == 7 && v[0] == '#';
      assert forall k :: 1 <= k < 7 ==> IsHexDigit(v[k]);
      assert forall k :: 0 <= k < 6 ==> v[1..][k] == v[k + 1];
    }
  }

  /** The name key of an input: trimmed, then lower-cased. */
  function Clean(input: string): string {
    ToLower(Trim(input))
  }

  /** `converterCor`. The two hex tests look at the raw input; only the
      table lookup uses the trimmed, lower-cased form. */
  function ConvertColor(input: string): (r: string)
    ensures IsHexColor(input) ==> r == input
    ensures !IsHexColor(input) && IsBareHex(input) ==> r == "#" + input
    ensures (!IsHexWithOptionalHash(input) && IsKey(Table, Clean(input)))
              ==> r == Lookup(Table, Clean(input)).value
    ensures !IsHexWithOptionalHash(input) && !IsKey(Table, Clean(input)) ==> r == input
  {
    if IsHexColor(input) then input
    else if IsBareHex(input) then "#" + input
    else match Lookup(Table, Clean(input))
      case Some(hex) => hex
      case None => input
  }

  /** `validarCor`. */
  function IsValidColor(input: string): (ok: bool)
    ensures ok <==> IsHexWithOptionalHash(input) || IsKey(Table, Clean(input))
  {
    IsHexWithOptionalHash(input) || Lookup(Table, Clean(input)).Some?
  }

  /** A colour the validator accepts always converts to `#` plus six hex
      digits. */
  lemma ValidConvertsToHex(input: string)
    requires IsValidColor(input)
    ensures IsHexColor(ConvertColor(input))
  {
    TableIsHex();
    LookupHex(Table, Clean(input));
    if !IsHexColor(input) && IsBareHex(input) {
      assert ("#" + input)[1..] == input;
    }
  }

  /** Converting twice is converting once, for every input. */
  lemma ConvertIdempotent(input: string)
    ensures ConvertColor(ConvertColor(input)) == ConvertColor(input)
  {
    TableIsHex();
    LookupHex(Table, Clean(input));
    if !IsHexColor(input) && IsBareHex(input) {
      assert ("#" + input)[1..] == input;
    }
  }

  /** An input the validator rejects is what the converter hands back
      unchanged; an accepted hex code is kept, case included, and only a
      missing `#` is added. */
  lemma InvalidUnchanged(input: string)
    ensures !IsValidColor(input) ==> ConvertColor(input) == input
    ensures IsHexWithOptionalHash(input) ==> ConvertColor(input)[|ConvertColor(input)| - 6..] == input[|input| - 6..]
  {
    if IsBareHex(input) && !IsHexColor(input) {
      assert ("#" + input)[1..] == input;
    }
  }
}
