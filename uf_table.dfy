/** `UF_COORDENADAS`: the fallback coordinate of each Brazilian state and
    the Federal District. The same 27 entries appear in
    src/app/utils/transformarAlertas.ts, src/app/utils/mapUtils.ts and
    src/app/components/Map/MapComponent/MapComponent.tsx. */
module UfTable {
  import opened Types
  import opened Text

  const UfCoordenadas: map<string, LatLng> := map[
    "AC" := LatLng(-8.77, -70.55), "AL" := LatLng(-9.62, -36.82), "AP" := LatLng(1.41, -51.77),
    "AM" := LatLng(-3.47, -65.10), "BA" := LatLng(-13.29, -41.71), "CE" := LatLng(-5.20, -39.53),
    "DF" := LatLng(-15.78, -47.93), "ES" := LatLng(-19.19, -40.34), "GO" := LatLng(-15.98, -49.86),
    "MA" := LatLng(-5.42, -45.44), "MT" := LatLng(-12.64, -55.42), "MS" := LatLng(-20.51, -54.54),
    "MG" := LatLng(-18.10, -44.38), "PA" := LatLng(-3.79, -52.48), "PB" := LatLng(-7.28, -36.72),
    "PR" := LatLng(-24.89, -51.55), "PE" := LatLng(-8.38, -37.86), "PI" := LatLng(-6.60, -42.28),
    "RJ" := LatLng(-22.25, -42.66), "RN" := LatLng(-5.81, -36.59), "RS" := LatLng(-30.17, -53.50),
    "RO" := LatLng(-10.83, -63.34), "RR" := LatLng(1.99, -61.33), "SC" := LatLng(-27.45, -50.95),
    "SP" := LatLng(-22.19, -48.79), "SE" := LatLng(-10.57, -37.45), "TO" := LatLng(-9.46, -48.26)
  ]

  /** A two-letter code of ASCII capitals: the shape `[A-Z]{2}`. */
  predicate IsUfCode(s: string) {
    |s| == 2 && IsAsciiUpper(s[0]) && IsAsciiUpper(s[1])
  }

  /** The table has exactly 27 keys, each a two-capital code; the 'BR'
      sentinel is not one of them. */
  lemma TableShape()
    ensures |UfCoordenadas| == 27
    ensures forall uf :: uf in UfCoordenadas ==> IsUfCode(uf)
    ensures "BR" !in UfCoordenadas
  {
    KeysAreSortedCodes();
    SortedCodesIncrease();
    StrictlyIncreasingCard(SortedCodes);
    KeysAreCodes();
  }

  lemma KeysAreSortedCodes()
    ensures UfCoordenadas.Keys == set k | k in SortedCodes
  {
  }

  /** 'ZZ' has the shape of a code but names no state. */
  lemma ZZSemEntrada()
    ensures "ZZ" !in UfCoordenadas
  {
    KeysAreSortedCodes();
  }

  lemma KeysAreCodes()
    ensures forall uf :: uf in UfCoordenadas ==> IsUfCode(uf)
    ensures "BR" !in UfCoordenadas
  {
  }

  lemma SortedCodesIncrease()
    ensures |SortedCodes| == 27
    ensures forall i :: 0 <= i < |SortedCodes| ==> |SortedCodes[i]| == 2
    ensures forall i :: 0 < i < |SortedCodes| ==> CodeValue(SortedCodes[i - 1]) < CodeValue(SortedCodes[i])
  {
  }

  /** The 27 keys in alphabetical order. */
  const SortedCodes: seq<string> := [
    "AC", "AL", "AM", "AP", "BA", "CE", "DF", "ES", "GO", "MA", "MG", "MS", "MT", "PA",
    "PB", "PE", "PI", "PR", "RJ", "RN", "RO", "RR", "RS", "SC", "SE", "SP", "TO"]

  /** Orders two-letter codes alphabetically. */
  function CodeValue(s: string): int
    requires |s| == 2
  {
    (s[0] as int) * 100 + s[1] as int
  }

  /** Codes listed in strictly increasing order are pairwise distinct, so
      there are as many keys as entries. */
  lemma {:induction false} StrictlyIncreasingCard(s: seq<string>)
    requires forall i :: 0 <= i < |s| ==> |s[i]| == 2
    requires forall i :: 0 < i < |s| ==> CodeValue(s[i - 1]) < CodeValue(s[i])
    ensures |set k | k in s| == |s|
    ensures forall j :: 0 < j < |s| ==> CodeValue(s[0]) < CodeValue(s[j])
  {
    if s != [] {
      var t := s[1..];
      StrictlyIncreasingCard(t);
      assert forall j :: 0 < j < |s| ==> CodeValue(s[0]) < CodeValue(s[j]) by {
        forall j | 1 < j < |s| ensures CodeValue(s[0]) < CodeValue(s[j]) {
          assert s[j] == t[j - 1];
        }
      }
      assert s[0] !in t by {
        forall j | 0 <= j < |t| ensures t[j] != s[0] {
          assert t[j] == s[j + 1];
        }
      }
      assert (set k | k in s) == {s[0]} + (set k | k in t);
    }
  }


  /** A sample entry: 'SP' resolves to (-22.19, -48.79). */
  lemma SaoPaulo()
    ensures "SP" in UfCoordenadas && UfCoordenadas["SP"] == LatLng(-22.19, -48.79)
  {
  }
}
