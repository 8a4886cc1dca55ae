/**
 * adobe_coeff() of adobe_coeff.cpp: the calibration table of camera models,
 * the lookup of a model name in it, and the decoding of the entry's matrix
 * before it is handed to cam_xyz_coeff().
 *
 * An entry matches when its name is a prefix of the model string, tested
 * as strncmp(model, name, strlen(name)) == 0, and the first matching entry
 * in table order wins. That is why a longer name that starts with a shorter
 * one ("XZ-10" and "XZ-1") is listed before it.
 */
module Calibration {
  import opened Matrices
  import opened Options
  import opened ColorProfile

  const NUL: char := '\0'

  /** A C string: its characters up to, not including, the terminator. */
  type CString = s: string | NUL !in s

  /** A `short`. */
  type Int16 = x: int | -0x8000 <= x < 0x8000

  /** The nine `trans` entries of a table row, row-major, scaled by 10000. */
  type Trans = t: seq<Int16> | |t| == 9 witness [0, 0, 0, 0, 0, 0, 0, 0, 0]

  /** A row of the table. Its `black` and `maximum` fields are never read. */
  datatype Entry = Entry(model: CString, trans: Trans)

  // ---------------------------------------------------------------------
  // strncmp

  /** The character at index `i` of a C string; the terminator, and past it, NUL. */
  function CharAt(s: CString, i: nat): char {
    if i < |s| then s[i] else NUL
  }

  /** strncmp(s1, s2, n): compares at most `n` characters, stopping after a terminator. */
  function StrnCmp(s1: CString, s2: CString, n: nat): int {
    StrnCmpFrom(s1, s2, n, 0)
  }

  /** strncmp from index `i` on. */
  function StrnCmpFrom(s1: CString, s2: CString, n: nat, i: nat): int
    decreases n - i
  {
    if n <= i then 0
    else if CharAt(s1, i) != CharAt(s2, i) then (CharAt(s1, i) as int) - (CharAt(s2, i) as int)
    else if CharAt(s1, i) == NUL then 0
    else StrnCmpFrom(s1, s2, n, i + 1)
  }

  /** A C string reads as the terminator exactly from its length on. */
  lemma CharAtNul(s: CString, i: nat)
    ensures CharAt(s, i) == NUL <==> |s| <= i
  {
    if i < |s| {
      assert s[i] in s;
    }
  }

  /** strncmp returns 0 exactly when the strings agree on the compared positions. */
  lemma {:induction false} StrnCmpFromZero(s1: CString, s2: CString, n: nat, i: nat)
    requires i <= n
    ensures StrnCmpFrom(s1, s2, n, i) == 0 <==> forall k | i <= k < n :: CharAt(s1, k) == CharAt(s2, k)
    decreases n - i
  {
    if n <= i {
    } else if CharAt(s1, i) != CharAt(s2, i) {
    } else if CharAt(s1, i) == NUL {
      CharAtNul(s1, i);
      CharAtNul(s2, i);
    } else {
      StrnCmpFromZero(s1, s2, n, i + 1);
    }
  }

  /** `name` agrees with `model` on its own length, terminators past the end included, exactly when it is a prefix. */
  lemma AgreeIffPrefix(name: CString, model: CString)
    ensures (forall k | 0 <= k < |name| :: CharAt(model, k) == CharAt(name, k)) <==> name <= model
  {
    if name <= model {
      forall k | 0 <= k < |name|
        ensures CharAt(model, k) == CharAt(name, k)
      {
        assert model[..|name|][k] == name[k];
      }
    }
    if forall k | 0 <= k < |name| :: CharAt(model, k) == CharAt(name, k) {
      assert |name| <= |model| by {
        if |model| < |name| {
          CharAtNul(model, |model|);
          CharAtNul(name, |model|);
        }
      }
      forall k | 0 <= k < |name|
        ensures model[k] == name[k]
      {
        assert CharAt(model, k) == CharAt(name, k);
      }
      assert model[..|name|] == name;
    }
  }

  /** strncmp(model, name, strlen(name)) == 0 exactly when `name` is a prefix of `model`. */
  lemma StrnCmpZeroIffPrefix(name: CString, model: CString)
    ensures StrnCmp(model, name, |name|) == 0 <==> name <= model
  {
    StrnCmpFromZero(model, name, |name|, 0);
    AgreeIffPrefix(name, model);
  }

  // ---------------------------------------------------------------------
  // The lookup

  /** The test of line 218: the entry's name is compared with the model over its own length. */
  predicate Matches(e: Entry, model: CString) {
    StrnCmp(model, e.model, |e.model|) == 0
  }

  /** The index of the first entry of `t` at or after `i` that matches `model`. */
  function FirstMatch(t: seq<Entry>, model: CString, i: nat): (r: Option<nat>)
    ensures r.Some? ==> i <= r.value < |t|
    decreases |t| - i
  {
    if |t| <= i then None
    else if Matches(t[i], model) then Some(i)
    else FirstMatch(t, model, i + 1)
  }

  /** The scan finds the first entry from `i` on whose name is a prefix of the model, or none. */
  lemma {:induction false} FirstMatchIsFirstPrefix(t: seq<Entry>, model: CString, i: nat)
    ensures var r := FirstMatch(t, model, i);
      && (r.Some? ==> t[r.value].model <= model
                      && forall j | i <= j < r.value :: !(t[j].model <= model))
      && (r.None? ==> forall j | i <= j < |t| :: !(t[j].model <= model))
    decreases |t| - i
  {
    if i < |t| {
      StrnCmpZeroIffPrefix(t[i].model, model);
      if !Matches(t[i], model) {
        FirstMatchIsFirstPrefix(t, model, i + 1);
      }
    }
  }

  /** The entry chosen is the one of lowest index whose name is a prefix of the model. */
  lemma LookupChoosesFirstPrefix(t: seq<Entry>, model: CString, k: nat)
    ensures FirstMatch(t, model, 0) == Some(k) <==>
      k < |t| && t[k].model <= model && forall j | 0 <= j < k :: !(t[j].model <= model)
  {
    FirstMatchIsFirstPrefix(t, model, 0);
  }

  /** No entry is chosen exactly when no name is a prefix of the model. */
  lemma LookupFailsIffNoPrefix(t: seq<Entry>, model: CString)
    ensures FirstMatch(t, model, 0) == None <==> forall j | 0 <= j < |t| :: !(t[j].model <= model)
  {
    FirstMatchIsFirstPrefix(t, model, 0);
  }

  /** An entry listed after another whose name is also a prefix of the model is never chosen. */
  lemma EarlierEntryWins(t: seq<Entry>, model: CString, i: nat, j: nat)
    requires i < j < |t| && t[i].model <= model && t[j].model <= model
    ensures FirstMatch(t, model, 0) != Some(j)
  {
    LookupChoosesFirstPrefix(t, model, j);
  }

  // ---------------------------------------------------------------------
  // Looking up in a table made of consecutive runs

  function Shift(r: Option<nat>, offset: nat): Option<nat> {
    if r.Some? then Some(r.value + offset) else None
  }

  /** The lookup in `a + b`, from the lookups in `a` and in `b`. */
  function Then(first: Option<nat>, second: Option<nat>, offset: nat): Option<nat> {
    if first.Some? then first else Shift(second, offset)
  }

  lemma {:induction false} FirstMatchInSuffix(a: seq<Entry>, b: seq<Entry>, model: CString, j: nat)
    requires j <= |b|
    ensures FirstMatch(a + b, model, |a| + j) == Shift(FirstMatch(b, model, j), |a|)
    decreases |b| - j
  {
    if j < |b| {
      assert (a + b)[|a| + j] == b[j];
      if !Matches(b[j], model) {
        FirstMatchInSuffix(a, b, model, j + 1);
      }
    }
  }

  lemma {:induction false} FirstMatchInPrefix(a: seq<Entry>, b: seq<Entry>, model: CString, i: nat)
    requires i <= |a|
    ensures FirstMatch(a + b, model, i) == Then(FirstMatch(a, model, i), FirstMatch(b, model, 0), |a|)
    decreases |a| - i
  {
    if i == |a| {
      FirstMatchInSuffix(a, b, model, 0);
    } else {
      assert (a + b)[i] == a[i];
      if !Matches(a[i], model) {
        FirstMatchInPrefix(a, b, model, i + 1);
      }
    }
  }

  /** Looking up in `a + b` looks in `a` first, then in `b`. */
  lemma LookupInConcatenation(a: seq<Entry>, b: seq<Entry>, model: CString)
    ensures FirstMatch(a + b, model, 0) == Then(FirstMatch(a, model, 0), FirstMatch(b, model, 0), |a|)
  {
    FirstMatchInPrefix(a, b, model, 0);
  }

  /** A match in `a` is the match in `a + b`. */
  lemma FoundInFront(a: seq<Entry>, b: seq<Entry>, model: CString)
    requires FirstMatch(a, model, 0).Some?
    ensures FirstMatch(a + b, model, 0) == FirstMatch(a, model, 0)
  {
    LookupInConcatenation(a, b, model);
  }

  /** With no match in `a`, the match in `a + b` is the one in `b`, shifted past `a`. */
  lemma MissedInFront(a: seq<Entry>, b: seq<Entry>, model: CString)
    requires FirstMatch(a, model, 0) == None
    ensures FirstMatch(a + b, model, 0) == Shift(FirstMatch(b, model, 0), |a|)
  {
    LookupInConcatenation(a, b, model);
  }
  /** A run none of whose names agrees with the model at index `k` has no match for it. */
  lemma NoMatchWhenCharDiffers(t: seq<Entry>, model: CString, k: nat)
    requires forall e | e in t :: k < |e.model| && e.model[k] != CharAt(model, k)
    ensures FirstMatch(t, model, 0) == None
  {
    LookupFailsIffNoPrefix(t, model);
    forall j | 0 <= j < |t|
      ensures !(t[j].model <= model)
    {
      assert t[j] in t;
    }
  }

  // ---------------------------------------------------------------------
  // The table of lines 111-214, in its own order, as consecutive runs

  /** Entries 0-4 of the table: Camedia compacts. */
  const Compacts: seq<Entry> := [
    Entry("C5050", [10508, -3124, -1273, -6079, 14294, 1901, -1653, 2306, 6237]),
    Entry("C5060", [10445, -3362, -1307, -7662, 15690, 2058, -1135, 1176, 7602]),
    Entry("C7070", [10252, -3531, -1095, -7114, 14850, 2436, -1451, 1723, 6365]),
    Entry("C70", [10793, -3791, -1146, -7498, 15177, 2488, -1390, 1577, 7321]),
    Entry("C80", [8606, -2509, -1014, -8238, 15714, 2703, -942, 979, 7760])
  ]

  /** Entries 5-10 of the table: Four Thirds SLRs, E-10 to E-30. */
  const FourThirdsEarly: seq<Entry> := [
    Entry("E-10", [12745, -4500, -1416, -6062, 14542, 1580, -1934, 2256, 6603]),
    Entry("E-1", [11846, -4767, -945, -7027, 15878, 1089, -2699, 4122, 8311]),
    Entry("E-20", [13173, -4732, -1499, -5807, 14036, 1895, -2045, 2452, 7142]),
    Entry("E-300", [7828, -1761, -348, -5788, 14071, 1830, -2853, 4518, 6557]),
    Entry("E-330", [8961, -2473, -1084, -7979, 15990, 2067, -2319, 3035, 8249]),
    Entry("E-30", [8144, -1861, -1111, -7763, 15894, 1929, -1865, 2542, 7607])
  ]

  /** Entries 11-16 of the table: Four Thirds SLRs, E-3 to E-500. */
  const FourThirdsMiddle: seq<Entry> := [
    Entry("E-3", [9487, -2875, -1115, -7533, 15606, 2010, -1618, 2100, 7389]),
    Entry("E-400", [6169, -1483, -21, -7107, 14761, 2536, -2904, 3580, 8568]),
    Entry("E-410", [8856, -2582, -1026, -7761, 15766, 2082, -2009, 2575, 7469]),
    Entry("E-420", [8746, -2425, -1095, -7594, 15612, 2073, -1780, 2309, 7416]),
    Entry("E-450", [8745, -2425, -1095, -7594, 15613, 2073, -1780, 2309, 7416]),
    Entry("E-500", [8136, -1968, -299, -5481, 13742, 1871, -2556, 4205, 6630])
  ]

  /** Entries 17-21 of the table: Four Thirds SLRs, E-510 to E-620. */
  const FourThirdsLate: seq<Entry> := [
    Entry("E-510", [8785, -2529, -1033, -7639, 15624, 2112, -1783, 2300, 7817]),
    Entry("E-520", [8344, -2322, -1020, -7596, 15635, 2048, -1748, 2269, 7287]),
    Entry("E-5", [11200, -3783, -1325, -4576, 12593, 2206, -695, 1742, 7504]),
    Entry("E-600", [8453, -2198, -1092, -7609, 15681, 2008, -1725, 2337, 7824]),
    Entry("E-620", [8453, -2198, -1092, -7609, 15681, 2008, -1725, 2337, 7824])
  ]

  /** Entries 22-25 of the table: PEN bodies, E-P1 to E-P5. */
  const PensEarly: seq<Entry> := [
    Entry("E-P1", [8343, -2050, -1021, -7715, 15705, 2103, -1831, 2380, 8235]),
    Entry("E-P2", [8343, -2050, -1021, -7715, 15705, 2103, -1831, 2380, 8235]),
    Entry("E-P3", [7575, -2159, -571, -3722, 11341, 2725, -1434, 2819, 6271]),
    Entry("E-P5", [8380, -2630, -639, -2887, 10725, 2496, -627, 1427, 5438])
  ]

  /** Entries 26-30 of the table: PEN bodies, E-PL1s to E-PL5. */
  const PensMiddle: seq<Entry> := [
    Entry("E-PL1s", [11409, -3872, -1393, -4572, 12757, 2003, -709, 1810, 7415]),
    Entry("E-PL1", [11408, -4289, -1215, -4286, 12385, 2118, -387, 1467, 7787]),
    Entry("E-PL2", [15030, -5552, -1806, -3987, 12387, 1767, -592, 1670, 7023]),
    Entry("E-PL3", [7575, -2159, -571, -3722, 11341, 2725, -1434, 2819, 6271]),
    Entry("E-PL5", [8380, -2630, -639, -2887, 10725, 2496, -627, 1427, 5438])
  ]

  /** Entries 31-34 of the table: PEN bodies, E-PL6 to E-PM2. */
  const PensLate: seq<Entry> := [
    Entry("E-PL6", [8380, -2630, -639, -2887, 10725, 2496, -627, 1427, 5438]),
    Entry("E-PL7", [9197, -3190, -659, -2606, 10830, 2039, -458, 1250, 5458]),
    Entry("E-PM1", [7575, -2159, -571, -3722, 11341, 2725, -1434, 2819, 6271]),
    Entry("E-PM2", [8380, -2630, -639, -2887, 10725, 2496, -627, 1427, 5438])
  ]

  /** Entries 35-38 of the table: OM-D bodies. */
  const OmD: seq<Entry> := [
    Entry("E-M10", [8380, -2630, -639, -2887, 10725, 2496, -627, 1427, 5438]),
    Entry("E-M1", [7687, -1984, -606, -4327, 11928, 2721, -1381, 2339, 6452]),
    Entry("E-M5MarkII", [9422, -3258, -711, -2655, 10898, 2015, -512, 1354, 5512]),
    Entry("E-M5", [8380, -2630, -639, -2887, 10725, 2496, -627, 1427, 5438])
  ]

  /** Entries 39-43 of the table: SH and SP compacts, SH-2 to SP510UZ. */
  const OthersEarly: seq<Entry> := [
    Entry("SH-2", [10156, -3425, -1077, -2611, 11177, 1624, -385, 1592, 5080]),
    Entry("SP350", [12078, -4836, -1069, -6671, 14306, 2578, -786, 939, 7418]),
    Entry("SP3", [11766, -4445, -1067, -6901, 14421, 2707, -1029, 1217, 7572]),
    Entry("SP500UZ", [9493, -3415, -666, -5211, 12334, 3260, -1548, 2262, 6482]),
    Entry("SP510UZ", [10593, -3607, -1010, -5881, 13127, 3084, -1200, 1805, 6721])
  ]

  /** Entries 44-48 of the table: SP, Stylus and Tough compacts, SP550UZ to TG-4. */
  const OthersLate: seq<Entry> := [
    Entry("SP550UZ", [11597, -4006, -1049, -5432, 12799, 2957, -1029, 1750, 6516]),
    Entry("SP560UZ", [10915, -3677, -982, -5587, 12986, 2911, -1168, 1968, 6223]),
    Entry("SP570UZ", [11522, -4044, -1146, -4736, 12172, 2904, -988, 1829, 6039]),
    Entry("STYLUS1", [8360, -2420, -880, -3928, 12353, 1739, -1381, 2416, 5173]),
    Entry("TG-4", [11426, -4159, -1126, -2066, 10678, 1593, -120, 1327, 4998])
  ]

  /** Entries 49-51 of the table: XZ compacts. */
  const Xz: seq<Entry> := [
    Entry("XZ-10", [9777, -3483, -925, -2886, 11297, 1800, -602, 1663, 5134]),
    Entry("XZ-1", [10901, -4095, -1074, -1141, 9208, 2293, -62, 1417, 5158]),
    Entry("XZ-2", [9777, -3483, -925, -2886, 11297, 1800, -602, 1663, 5134])
  ]

  /** The first runs of the table, up to and including the one each is named after. */
  const UpToFourThirdsEarly: seq<Entry> := Compacts + FourThirdsEarly
  const UpToFourThirdsMiddle: seq<Entry> := UpToFourThirdsEarly + FourThirdsMiddle
  const UpToFourThirdsLate: seq<Entry> := UpToFourThirdsMiddle + FourThirdsLate
  const UpToPensEarly: seq<Entry> := UpToFourThirdsLate + PensEarly
  const UpToPensMiddle: seq<Entry> := UpToPensEarly + PensMiddle
  const UpToPensLate: seq<Entry> := UpToPensMiddle + PensLate
  const UpToOmD: seq<Entry> := UpToPensLate + OmD
  const UpToOthersEarly: seq<Entry> := UpToOmD + OthersEarly
  const UpToOthersLate: seq<Entry> := UpToOthersEarly + OthersLate

  /** The table of lines 111-214. */
  const Table: seq<Entry> := UpToOthersLate + Xz

  /** The table has 52 entries, and no name is empty: an empty name would match every model. */
  lemma TableShape()
    ensures |Table| == 52
    ensures forall j | 0 <= j < |Table| :: 0 < |Table[j].model|
  {
  }

  /** The Camedia names all begin with 'C'. */
  lemma CompactsDiffers(model: CString)
    requires CharAt(model, 0) != 'C'
    ensures forall e | e in Compacts :: 0 < |e.model| && e.model[0] != CharAt(model, 0)
  {
  }

  lemma CompactsMiss(model: CString)
    requires CharAt(model, 0) != 'C'
    ensures FirstMatch(Compacts, model, 0) == None
  {
    CompactsDiffers(model);
    NoMatchWhenCharDiffers(Compacts, model, 0);
  }

  /** The Four Thirds names are "E-" and a digit. */
  lemma FourThirdsEarlyDiffers(model: CString)
    requires CharAt(model, 0) != 'E' || !('0' <= CharAt(model, 2) <= '9')
    ensures var k := if CharAt(model, 0) != 'E' then 0 else 2;
      forall e | e in FourThirdsEarly :: k < |e.model| && e.model[k] != CharAt(model, k)
  {
  }

  lemma FourThirdsEarlyMiss(model: CString)
    requires CharAt(model, 0) != 'E' || !('0' <= CharAt(model, 2) <= '9')
    ensures FirstMatch(FourThirdsEarly, model, 0) == None
  {
    FourThirdsEarlyDiffers(model);
    NoMatchWhenCharDiffers(FourThirdsEarly, model, if CharAt(model, 0) != 'E' then 0 else 2);
  }

  lemma FourThirdsMiddleDiffers(model: CString)
    requires CharAt(model, 0) != 'E' || !('0' <= CharAt(model, 2) <= '9')
    ensures var k := if CharAt(model, 0) != 'E' then 0 else 2;
      forall e | e in FourThirdsMiddle :: k < |e.model| && e.model[k] != CharAt(model, k)
  {
  }

  lemma FourThirdsMiddleMiss(model: CString)
    requires CharAt(model, 0) != 'E' || !('0' <= CharAt(model, 2) <= '9')
    ensures FirstMatch(FourThirdsMiddle, model, 0) == None
  {
    FourThirdsMiddleDiffers(model);
    NoMatchWhenCharDiffers(FourThirdsMiddle, model, if CharAt(model, 0) != 'E' then 0 else 2);
  }

  lemma FourThirdsLateDiffers(model: CString)
    requires CharAt(model, 0) != 'E' || !('0' <= CharAt(model, 2) <= '9')
    ensures var k := if CharAt(model, 0) != 'E' then 0 else 2;
      forall e | e in FourThirdsLate :: k < |e.model| && e.model[k] != CharAt(model, k)
  {
  }

  lemma FourThirdsLateMiss(model: CString)
    requires CharAt(model, 0) != 'E' || !('0' <= CharAt(model, 2) <= '9')
    ensures FirstMatch(FourThirdsLate, model, 0) == None
  {
    FourThirdsLateDiffers(model);
    NoMatchWhenCharDiffers(FourThirdsLate, model, if CharAt(model, 0) != 'E' then 0 else 2);
  }

  /** The first PEN names are "E-P" and a digit. */
  lemma PensEarlyDiffers(model: CString)
    requires CharAt(model, 0) != 'E' || CharAt(model, 2) != 'P' || !('0' <= CharAt(model, 3) <= '9')
    ensures var k := if CharAt(model, 0) != 'E' then 0 else if CharAt(model, 2) != 'P' then 2 else 3;
      forall e | e in PensEarly :: k < |e.model| && e.model[k] != CharAt(model, k)
  {
  }

  lemma PensEarlyMiss(model: CString)
    requires CharAt(model, 0) != 'E' || CharAt(model, 2) != 'P' || !('0' <= CharAt(model, 3) <= '9')
    ensures FirstMatch(PensEarly, model, 0) == None
  {
    PensEarlyDiffers(model);
    NoMatchWhenCharDiffers(PensEarly, model, if CharAt(model, 0) != 'E' then 0 else if CharAt(model, 2) != 'P' then 2 else 3);
  }

  /** The other PEN names begin with "E-P". */
  lemma PensMiddleDiffers(model: CString)
    requires CharAt(model, 0) != 'E' || CharAt(model, 2) != 'P'
    ensures var k := if CharAt(model, 0) != 'E' then 0 else 2;
      forall e | e in PensMiddle :: k < |e.model| && e.model[k] != CharAt(model, k)
  {
  }

  lemma PensMiddleMiss(model: CString)
    requires CharAt(model, 0) != 'E' || CharAt(model, 2) != 'P'
    ensures FirstMatch(PensMiddle, model, 0) == None
  {
    PensMiddleDiffers(model);
    NoMatchWhenCharDiffers(PensMiddle, model, if CharAt(model, 0) != 'E' then 0 else 2);
  }

  lemma PensLateDiffers(model: CString)
    requires CharAt(model, 0) != 'E' || CharAt(model, 2) != 'P'
    ensures var k := if CharAt(model, 0) != 'E' then 0 else 2;
      forall e | e in PensLate :: k < |e.model| && e.model[k] != CharAt(model, k)
  {
  }

  lemma PensLateMiss(model: CString)
    requires CharAt(model, 0) != 'E' || CharAt(model, 2) != 'P'
    ensures FirstMatch(PensLate, model, 0) == None
  {
    PensLateDiffers(model);
    NoMatchWhenCharDiffers(PensLate, model, if CharAt(model, 0) != 'E' then 0 else 2);
  }

  /** The OM-D names begin with "E-M". */
  lemma OmDDiffers(model: CString)
    requires CharAt(model, 0) != 'E' || CharAt(model, 2) != 'M'
    ensures var k := if CharAt(model, 0) != 'E' then 0 else 2;
      forall e | e in OmD :: k < |e.model| && e.model[k] != CharAt(model, k)
  {
  }

  lemma OmDMiss(model: CString)
    requires CharAt(model, 0) != 'E' || CharAt(model, 2) != 'M'
    ensures FirstMatch(OmD, model, 0) == None
  {
    OmDDiffers(model);
    NoMatchWhenCharDiffers(OmD, model, if CharAt(model, 0) != 'E' then 0 else 2);
  }

  /** The SH and SP names begin with 'S'. */
  lemma OthersEarlyDiffers(model: CString)
    requires CharAt(model, 0) != 'S'
    ensures forall e | e in OthersEarly :: 0 < |e.model| && e.model[0] != CharAt(model, 0)
  {
  }

  lemma OthersEarlyMiss(model: CString)
    requires CharAt(model, 0) != 'S'
    ensures FirstMatch(OthersEarly, model, 0) == None
  {
    OthersEarlyDiffers(model);
    NoMatchWhenCharDiffers(OthersEarly, model, 0);
  }

  /** The SP, Stylus and Tough names begin with 'S' or 'T'. */
  lemma OthersLateDiffers(model: CString)
    requires CharAt(model, 0) != 'S' && CharAt(model, 0) != 'T'
    ensures forall e | e in OthersLate :: 0 < |e.model| && e.model[0] != CharAt(model, 0)
  {
  }

  lemma OthersLateMiss(model: CString)
    requires CharAt(model, 0) != 'S' && CharAt(model, 0) != 'T'
    ensures FirstMatch(OthersLate, model, 0) == None
  {
    OthersLateDiffers(model);
    NoMatchWhenCharDiffers(OthersLate, model, 0);
  }

  /** The XZ names begin with 'X'. */
  lemma XzDiffers(model: CString)
    requires CharAt(model, 0) != 'X'
    ensures forall e | e in Xz :: 0 < |e.model| && e.model[0] != CharAt(model, 0)
  {
  }

  lemma XzMiss(model: CString)
    requires CharAt(model, 0) != 'X'
    ensures FirstMatch(Xz, model, 0) == None
  {
    XzDiffers(model);
    NoMatchWhenCharDiffers(Xz, model, 0);
  }

  /** None of the runs up to FourThirdsEarly matches a model that each of their miss lemmas rules out. */
  lemma MissesThroughFourThirdsEarly(model: CString)
    requires (CharAt(model, 0) != 'C')
      && (CharAt(model, 0) != 'E' || !('0' <= CharAt(model, 2) <= '9'))
    ensures FirstMatch(UpToFourThirdsEarly, model, 0) == None
  {
    CompactsMiss(model);
    FourThirdsEarlyMiss(model);
    MissedInFront(Compacts, FourThirdsEarly, model);
  }

  lemma MissesThroughFourThirdsMiddle(model: CString)
    requires (CharAt(model, 0) != 'C')
      && (CharAt(model, 0) != 'E' || !('0' <= CharAt(model, 2) <= '9'))
    ensures FirstMatch(UpToFourThirdsMiddle, model, 0) == None
  {
    MissesThroughFourThirdsEarly(model);
    FourThirdsMiddleMiss(model);
    MissedInFront(UpToFourThirdsEarly, FourThirdsMiddle, model);
  }

  lemma MissesThroughFourThirdsLate(model: CString)
    requires (CharAt(model, 0) != 'C')
      && (CharAt(model, 0) != 'E' || !('0' <= CharAt(model, 2) <= '9'))
    ensures FirstMatch(UpToFourThirdsLate, model, 0) == None
  {
    MissesThroughFourThirdsMiddle(model);
    FourThirdsLateMiss(model);
    MissedInFront(UpToFourThirdsMiddle, FourThirdsLate, model);
  }

  lemma MissesThroughPensEarly(model: CString)
    requires (CharAt(model, 0) != 'C')
      && (CharAt(model, 0) != 'E' || !('0' <= CharAt(model, 2) <= '9'))
      && (CharAt(model, 0) != 'E' || CharAt(model, 2) != 'P' || !('0' <= CharAt(model, 3) <= '9'))
    ensures FirstMatch(UpToPensEarly, model, 0) == None
  {
    MissesThroughFourThirdsLate(model);
    PensEarlyMiss(model);
    MissedInFront(UpToFourThirdsLate, PensEarly, model);
  }

  lemma MissesThroughPensMiddle(model: CString)
    requires (CharAt(model, 0) != 'C')
      && (CharAt(model, 0) != 'E' || !('0' <= CharAt(model, 2) <= '9'))
      && (CharAt(model, 0) != 'E' || CharAt(model, 2) != 'P')
    ensures FirstMatch(UpToPensMiddle, model, 0) == None
  {
    MissesThroughPensEarly(model);
    PensMiddleMiss(model);
    MissedInFront(UpToPensEarly, PensMiddle, model);
  }

  lemma MissesThroughPensLate(model: CString)
    requires (CharAt(model, 0) != 'C')
      && (CharAt(model, 0) != 'E' || !('0' <= CharAt(model, 2) <= '9'))
      && (CharAt(model, 0) != 'E' || CharAt(model, 2) != 'P')
    ensures FirstMatch(UpToPensLate, model, 0) == None
  {
    MissesThroughPensMiddle(model);
    PensLateMiss(model);
    MissedInFront(UpToPensMiddle, PensLate, model);
  }

  lemma MissesThroughOmD(model: CString)
    requires (CharAt(model, 0) != 'C')
      && (CharAt(model, 0) != 'E' || !('0' <= CharAt(model, 2) <= '9'))
      && (CharAt(model, 0) != 'E' || CharAt(model, 2) != 'P')
      && (CharAt(model, 0) != 'E' || CharAt(model, 2) != 'M')
    ensures FirstMatch(UpToOmD, model, 0) == None
  {
    MissesThroughPensLate(model);
    OmDMiss(model);
    MissedInFront(UpToPensLate, OmD, model);
  }

  lemma MissesThroughOthersEarly(model: CString)
    requires (CharAt(model, 0) != 'C')
      && (CharAt(model, 0) != 'E' || !('0' <= CharAt(model, 2) <= '9'))
      && (CharAt(model, 0) != 'E' || CharAt(model, 2) != 'P')
      && (CharAt(model, 0) != 'E' || CharAt(model, 2) != 'M')
      && (CharAt(model, 0) != 'S')
    ensures FirstMatch(UpToOthersEarly, model, 0) == None
  {
    MissesThroughOmD(model);
    OthersEarlyMiss(model);
    MissedInFront(UpToOmD, OthersEarly, model);
  }

  lemma MissesThroughOthersLate(model: CString)
    requires (CharAt(model, 0) != 'C')
      && (CharAt(model, 0) != 'E' || !('0' <= CharAt(model, 2) <= '9'))
      && (CharAt(model, 0) != 'E' || CharAt(model, 2) != 'P')
      && (CharAt(model, 0) != 'E' || CharAt(model, 2) != 'M')
      && (CharAt(model, 0) != 'S' && CharAt(model, 0) != 'T')
    ensures FirstMatch(UpToOthersLate, model, 0) == None
  {
    MissesThroughOthersEarly(model);
    OthersLateMiss(model);
    MissedInFront(UpToOthersEarly, OthersLate, model);
  }

  lemma MissesThroughXz(model: CString)
    requires (CharAt(model, 0) != 'C')
      && (CharAt(model, 0) != 'E' || !('0' <= CharAt(model, 2) <= '9'))
      && (CharAt(model, 0) != 'E' || CharAt(model, 2) != 'P')
      && (CharAt(model, 0) != 'E' || CharAt(model, 2) != 'M')
      && (CharAt(model, 0) != 'S' && CharAt(model, 0) != 'T')
      && (CharAt(model, 0) != 'X')
    ensures FirstMatch(Table, model, 0) == None
  {
    MissesThroughOthersLate(model);
    XzMiss(model);
    MissedInFront(UpToOthersLate, Xz, model);
  }

  /** A model that begins with no name's first letter is unknown. */
  lemma UnknownOutsideTheFamilies(model: CString)
    requires CharAt(model, 0) !in {'C', 'E', 'S', 'T', 'X'}
    ensures FirstMatch(Table, model, 0) == None
  {
    MissesThroughXz(model);
  }

  // ---------------------------------------------------------------------
  // Names that share a stem: the longer one is listed first

  /** No run before the first Four Thirds run matches an "E-" name. */
  lemma FoundInFourThirdsEarly(model: CString, k: nat)
    requires CharAt(model, 0) == 'E'
    requires FirstMatch(FourThirdsEarly, model, 0) == Some(k)
    ensures FirstMatch(UpToFourThirdsEarly, model, 0) == Some(5 + k)
  {
    CompactsMiss(model);
    MissedInFront(Compacts, FourThirdsEarly, model);
  }

  /** A match in the runs up to FourThirdsEarly is not displaced by the runs after it. */
  lemma KeptAfterFourThirdsEarly(front: seq<Entry>, model: CString)
    requires FirstMatch(front, model, 0).Some?
    ensures FirstMatch(front + FourThirdsMiddle + FourThirdsLate + PensEarly + PensMiddle + PensLate + OmD + OthersEarly + OthersLate + Xz, model, 0) == FirstMatch(front, model, 0)
  {
    var prefix := front;
    FoundInFront(prefix, FourThirdsMiddle, model);
    prefix := prefix + FourThirdsMiddle;
    FoundInFront(prefix, FourThirdsLate, model);
    prefix := prefix + FourThirdsLate;
    FoundInFront(prefix, PensEarly, model);
    prefix := prefix + PensEarly;
    FoundInFront(prefix, PensMiddle, model);
    prefix := prefix + PensMiddle;
    FoundInFront(prefix, PensLate, model);
    prefix := prefix + PensLate;
    FoundInFront(prefix, OmD, model);
    prefix := prefix + OmD;
    FoundInFront(prefix, OthersEarly, model);
    prefix := prefix + OthersEarly;
    FoundInFront(prefix, OthersLate, model);
    prefix := prefix + OthersLate;
    FoundInFront(prefix, Xz, model);
  }

  lemma ResolvedInFourThirdsEarly(model: CString, k: nat)
    requires FirstMatch(UpToFourThirdsEarly, model, 0) == Some(5 + k)
    ensures FirstMatch(Table, model, 0) == Some(5 + k)
  {
    KeptAfterFourThirdsEarly(UpToFourThirdsEarly, model);
  }

  lemma MissConditionsBeforePensMiddle(model: CString)
    requires CharAt(model, 0) == 'E' && CharAt(model, 2) == 'P' && CharAt(model, 3) == 'L'
    ensures (CharAt(model, 0) != 'C')
      && (CharAt(model, 0) != 'E' || !('0' <= CharAt(model, 2) <= '9'))
      && (CharAt(model, 0) != 'E' || CharAt(model, 2) != 'P' || !('0' <= CharAt(model, 3) <= '9'))
  {
  }

  /** No run before the second PEN run matches an "E-PL" name. */
  lemma MissesBeforePensMiddle(model: CString)
    requires CharAt(model, 0) == 'E' && CharAt(model, 2) == 'P' && CharAt(model, 3) == 'L'
    ensures FirstMatch(UpToPensEarly, model, 0) == None
  {
    MissConditionsBeforePensMiddle(model);
    MissesThroughPensEarly(model);
  }

  lemma FoundInPensMiddle(model: CString, k: nat)
    requires CharAt(model, 0) == 'E' && CharAt(model, 2) == 'P' && CharAt(model, 3) == 'L'
    requires FirstMatch(PensMiddle, model, 0) == Some(k)
    ensures FirstMatch(UpToPensMiddle, model, 0) == Some(26 + k)
  {
    MissesBeforePensMiddle(model);
    MissedInFront(UpToPensEarly, PensMiddle, model);
  }

  /** A match in the runs up to PensMiddle is not displaced by the runs after it. */
  lemma KeptAfterPensMiddle(front: seq<Entry>, model: CString)
    requires FirstMatch(front, model, 0).Some?
    ensures FirstMatch(front + PensLate + OmD + OthersEarly + OthersLate + Xz, model, 0) == FirstMatch(front, model, 0)
  {
    var prefix := front;
    FoundInFront(prefix, PensLate, model);
    prefix := prefix + PensLate;
    FoundInFront(prefix, OmD, model);
    prefix := prefix + OmD;
    FoundInFront(prefix, OthersEarly, model);
    prefix := prefix + OthersEarly;
    FoundInFront(prefix, OthersLate, model);
    prefix := prefix + OthersLate;
    FoundInFront(prefix, Xz, model);
  }

  lemma ResolvedInPensMiddle(model: CString, k: nat)
    requires FirstMatch(UpToPensMiddle, model, 0) == Some(26 + k)
    ensures FirstMatch(Table, model, 0) == Some(26 + k)
  {
    KeptAfterPensMiddle(UpToPensMiddle, model);
  }

  lemma MissConditionsBeforeOmD(model: CString)
    requires CharAt(model, 0) == 'E' && CharAt(model, 2) == 'M'
    ensures (CharAt(model, 0) != 'C')
      && (CharAt(model, 0) != 'E' || !('0' <= CharAt(model, 2) <= '9'))
      && (CharAt(model, 0) != 'E' || CharAt(model, 2) != 'P')
  {
  }

  /** No run before the OM-D run matches an "E-M" name. */
  lemma MissesBeforeOmD(model: CString)
    requires CharAt(model, 0) == 'E' && CharAt(model, 2) == 'M'
    ensures FirstMatch(UpToPensLate, model, 0) == None
  {
    MissConditionsBeforeOmD(model);
    MissesThroughPensLate(model);
  }

  lemma FoundInOmD(model: CString, k: nat)
    requires CharAt(model, 0) == 'E' && CharAt(model, 2) == 'M'
    requires FirstMatch(OmD, model, 0) == Some(k)
    ensures FirstMatch(UpToOmD, model, 0) == Some(35 + k)
  {
    MissesBeforeOmD(model);
    MissedInFront(UpToPensLate, OmD, model);
  }

  /** A match in the runs up to OmD is not displaced by the runs after it. */
  lemma KeptAfterOmD(front: seq<Entry>, model: CString)
    requires FirstMatch(front, model, 0).Some?
    ensures FirstMatch(front + OthersEarly + OthersLate + Xz, model, 0) == FirstMatch(front, model, 0)
  {
    var prefix := front;
    FoundInFront(prefix, OthersEarly, model);
    prefix := prefix + OthersEarly;
    FoundInFront(prefix, OthersLate, model);
    prefix := prefix + OthersLate;
    FoundInFront(prefix, Xz, model);
  }

  lemma ResolvedInOmD(model: CString, k: nat)
    requires FirstMatch(UpToOmD, model, 0) == Some(35 + k)
    ensures FirstMatch(Table, model, 0) == Some(35 + k)
  {
    KeptAfterOmD(UpToOmD, model);
  }

  /** No run before the XZ run matches an "X" name. */
  lemma MissesBeforeXz(model: CString)
    requires CharAt(model, 0) == 'X'
    ensures FirstMatch(UpToOthersLate, model, 0) == None
  {
    MissesThroughOthersLate(model);
  }

  lemma FoundInXz(model: CString, k: nat)
    requires CharAt(model, 0) == 'X'
    requires FirstMatch(Xz, model, 0) == Some(k)
    ensures FirstMatch(Table, model, 0) == Some(49 + k)
  {
    MissesBeforeXz(model);
    MissedInFront(UpToOthersLate, Xz, model);
  }

  /** A name that differs from the model at index `k`, or is longer than `k` where the model ends, is not a prefix of it. */
  lemma NotPrefixAt(name: CString, model: CString, k: nat)
    requires k < |name| && (|model| <= k || name[k] != model[k])
    ensures !(name <= model)
  {
  }

  /** "E-10" gets entry 5. */
  lemma E10Resolves()
    ensures FirstMatch(Table, "E-10", 0) == Some(5)
  {
    LookupChoosesFirstPrefix(FourThirdsEarly, "E-10", 0);
    FoundInFourThirdsEarly("E-10", 0);
    ResolvedInFourThirdsEarly("E-10", 0);
  }

  /** "E-1" gets entry 6. */
  lemma E1Resolves()
    ensures FirstMatch(Table, "E-1", 0) == Some(6)
  {
    NotPrefixAt(FourThirdsEarly[0].model, "E-1", 3);
    LookupChoosesFirstPrefix(FourThirdsEarly, "E-1", 1);
    FoundInFourThirdsEarly("E-1", 1);
    ResolvedInFourThirdsEarly("E-1", 1);
  }

  /** "E-PL1s" gets entry 26. */
  lemma EPl1sResolves()
    ensures FirstMatch(Table, "E-PL1s", 0) == Some(26)
  {
    LookupChoosesFirstPrefix(PensMiddle, "E-PL1s", 0);
    FoundInPensMiddle("E-PL1s", 0);
    ResolvedInPensMiddle("E-PL1s", 0);
  }

  /** "E-PL1" gets entry 27. */
  lemma EPl1Resolves()
    ensures FirstMatch(Table, "E-PL1", 0) == Some(27)
  {
    NotPrefixAt(PensMiddle[0].model, "E-PL1", 5);
    LookupChoosesFirstPrefix(PensMiddle, "E-PL1", 1);
    FoundInPensMiddle("E-PL1", 1);
    ResolvedInPensMiddle("E-PL1", 1);
  }

  /** "E-M10" gets entry 35. */
  lemma EM10Resolves()
    ensures FirstMatch(Table, "E-M10", 0) == Some(35)
  {
    LookupChoosesFirstPrefix(OmD, "E-M10", 0);
    FoundInOmD("E-M10", 0);
    ResolvedInOmD("E-M10", 0);
  }

  /** "E-M1" gets entry 36. */
  lemma EM1Resolves()
    ensures FirstMatch(Table, "E-M1", 0) == Some(36)
  {
    NotPrefixAt(OmD[0].model, "E-M1", 4);
    LookupChoosesFirstPrefix(OmD, "E-M1", 1);
    FoundInOmD("E-M1", 1);
    ResolvedInOmD("E-M1", 1);
  }

  /** "E-M5MarkII" gets entry 37. */
  lemma EM5MarkIIResolves()
    ensures FirstMatch(Table, "E-M5MarkII", 0) == Some(37)
  {
    NotPrefixAt(OmD[0].model, "E-M5MarkII", 3);
    NotPrefixAt(OmD[1].model, "E-M5MarkII", 3);
    LookupChoosesFirstPrefix(OmD, "E-M5MarkII", 2);
    FoundInOmD("E-M5MarkII", 2);
    ResolvedInOmD("E-M5MarkII", 2);
  }

  /** "E-M5" gets entry 38. */
  lemma EM5Resolves()
    ensures FirstMatch(Table, "E-M5", 0) == Some(38)
  {
    NotPrefixAt(OmD[0].model, "E-M5", 3);
    NotPrefixAt(OmD[1].model, "E-M5", 3);
    NotPrefixAt(OmD[2].model, "E-M5", 4);
    LookupChoosesFirstPrefix(OmD, "E-M5", 3);
    FoundInOmD("E-M5", 3);
    ResolvedInOmD("E-M5", 3);
  }

  /** "XZ-10" gets entry 49. */
  lemma Xz10Resolves()
    ensures FirstMatch(Table, "XZ-10", 0) == Some(49)
  {
    LookupChoosesFirstPrefix(Xz, "XZ-10", 0);
    FoundInXz("XZ-10", 0);
  }

  /** "XZ-1" gets entry 50. */
  lemma Xz1Resolves()
    ensures FirstMatch(Table, "XZ-1", 0) == Some(50)
  {
    NotPrefixAt(Xz[0].model, "XZ-1", 4);
    LookupChoosesFirstPrefix(Xz, "XZ-1", 1);
    FoundInXz("XZ-1", 1);
  }

  /** "E-10" (entry 5) comes before "E-1" (entry 6), so each name resolves to its own entry. */
  lemma E10AndE1Resolve()
    ensures FirstMatch(Table, "E-10", 0) == Some(5)
    ensures FirstMatch(Table, "E-1", 0) == Some(6)
  {
    E10Resolves();
    E1Resolves();
  }

  /** "E-PL1s" (entry 26) comes before "E-PL1" (entry 27), so each name resolves to its own entry. */
  lemma EPl1sAndEPl1Resolve()
    ensures FirstMatch(Table, "E-PL1s", 0) == Some(26)
    ensures FirstMatch(Table, "E-PL1", 0) == Some(27)
  {
    EPl1sResolves();
    EPl1Resolves();
  }

  /** "E-M10" (entry 35) comes before "E-M1" (entry 36), so each name resolves to its own entry. */
  lemma EM10AndEM1Resolve()
    ensures FirstMatch(Table, "E-M10", 0) == Some(35)
    ensures FirstMatch(Table, "E-M1", 0) == Some(36)
  {
    EM10Resolves();
    EM1Resolves();
  }

  /** "E-M5MarkII" (entry 37) comes before "E-M5" (entry 38), so each name resolves to its own entry. */
  lemma EM5MarkIIAndEM5Resolve()
    ensures FirstMatch(Table, "E-M5MarkII", 0) == Some(37)
    ensures FirstMatch(Table, "E-M5", 0) == Some(38)
  {
    EM5MarkIIResolves();
    EM5Resolves();
  }

  /** "XZ-10" (entry 49) comes before "XZ-1" (entry 50), so each name resolves to its own entry. */
  lemma Xz10AndXz1Resolve()
    ensures FirstMatch(Table, "XZ-10", 0) == Some(49)
    ensures FirstMatch(Table, "XZ-1", 0) == Some(50)
  {
    Xz10Resolves();
    Xz1Resolves();
  }

  /** The first match wins, not the longest: with "E-1" listed first, "E-10Pro" gets "E-1". */
  lemma FirstMatchIsNotLongestMatch()
    ensures FirstMatch([Entry("E-1", [0, 0, 0, 0, 0, 0, 0, 0, 0]), Entry("E-10", [0, 0, 0, 0, 0, 0, 0, 0, 0])],
                       "E-10Pro", 0) == Some(0)
  {
    StrnCmpZeroIffPrefix("E-1", "E-10Pro");
  }

  // ---------------------------------------------------------------------
  // The scan of lines 217-218

  /** The loop of lines 217-218: the first entry whose name is a prefix of the model. */
  method FindEntry(table: seq<Entry>, model: CString) returns (found: Option<nat>)
    ensures found == FirstMatch(table, model, 0)
    ensures found.Some? ==> found.value < |table| && table[found.value].model <= model
    ensures found.Some? ==> forall j | 0 <= j < found.value :: !(table[j].model <= model)
    ensures found.None? ==> forall j | 0 <= j < |table| :: !(table[j].model <= model)
  {
    FirstMatchIsFirstPrefix(table, model, 0);
    for i := 0 to |table|
      invariant FirstMatch(table, model, 0) == FirstMatch(table, model, i)
    {
      if StrnCmp(model, table[i].model, |table[i].model|) == 0 {
        return Some(i);
      }
    }
    return None;
  }

  // ---------------------------------------------------------------------
  // Decoding an entry, lines 219-221

  /** adobe_cam_xyz[j / 3][j % 3] = trans[j] / 10000.0 for the nine entries. */
  function Decode(trans: Trans): (m: Matrix)
    ensures Is3x3(m)
    ensures forall j | 0 <= j < 9 :: m[j / 3][j % 3] == trans[j] as real / 10000.0
  {
    seq(3, r requires 0 <= r < 3 => seq(3, c requires 0 <= c < 3 => trans[3 * r + c] as real / 10000.0))
  }

  /** Scaling a decoded matrix back by 10000 and reading it row-major. */
  function Encode(m: Matrix): (t: seq<int>)
    requires Is3x3(m)
    ensures |t| == 9
  {
    seq(9, j requires 0 <= j < 9 => (m[j / 3][j % 3] * 10000.0).Floor)
  }

  /** Over reals, decoding loses nothing: the table's integers come back. (In `double`, trans[j] / 10000.0 is rounded.) */
  lemma EncodeDecode(trans: Trans)
    ensures Encode(Decode(trans)) == trans
  {
    var m := Decode(trans);
    forall j | 0 <= j < 9
      ensures Encode(m)[j] == trans[j]
    {
      assert m[j / 3][j % 3] * 10000.0 == trans[j] as real;
    }
  }

  /** The loop of lines 220-221, on the caller's array. */
  method DecodeInto(trans: Trans, camXyz: array2<real>)
    requires IsArray3x3(camXyz)
    modifies camXyz
    ensures Value(camXyz) == Decode(trans)
  {
    for j := 0 to 9
      invariant forall k | 0 <= k < j :: camXyz[k / 3, k % 3] == trans[k] as real / 10000.0
    {
      camXyz[j / 3, j % 3] := trans[j] as real / 10000.0;
    }
    forall r, c | 0 <= r < 3 && 0 <= c < 3
      ensures camXyz[r, c] == Decode(trans)[r][c]
    {
      var k := 3 * r + c;
      assert k / 3 == r && k % 3 == c;
    }
    EqualEntries(Value(camXyz), Decode(trans), 3, 3);
  }

  // ---------------------------------------------------------------------
  // adobe_coeff()

  /** What adobe_coeff() computes for a model name, on values. */
  function AdobeCoeffOf(model: CString): Result {
    match FirstMatch(Table, model, 0)
    case None => Err(UnknownModel)
    case Some(i) => Derive(Decode(Table[i].trans))
  }

  /** A model is unknown exactly when no name in the table is a prefix of it. */
  lemma UnknownIffNoPrefix(model: CString)
    ensures AdobeCoeffOf(model) == Err(UnknownModel) <==>
      forall j | 0 <= j < |Table| :: !(Table[j].model <= model)
  {
    LookupFailsIffNoPrefix(Table, model);
    var found := FirstMatch(Table, model, 0);
    if found.Some? {
      FailsOnlyOnZeroDivisor(CamRgb(Decode(Table[found.value].trans)));
    }
  }

  /**
   * adobe_coeff(model, rgbCoefficient, rgb_cam): on a match, the entry's
   * matrix goes through cam_xyz_coeff(); when nothing matches, nothing is
   * written.
   */
  method AdobeCoeff(model: CString, coeff: RgbCoefficient, rgbCam: array2<real>) returns (status: Status)
    requires IsArray3x3(rgbCam)
    modifies coeff, rgbCam
    ensures var d := AdobeCoeffOf(model);
      && status == StatusOf(d)
      && (d.Ok? ==> coeff.r == d.profile.r && coeff.g == d.profile.g && coeff.b == d.profile.b
                    && Value(rgbCam) == d.profile.rgbCam)
      && (d.Err? ==> unchanged(coeff) && Value(rgbCam) == old(Value(rgbCam)))
  {
    var found := FindEntry(Table, model);
    if found.None? {
      return Failure(UnknownModel);
    }
    var camXyz := new real[3, 3];
    DecodeInto(Table[found.value].trans, camXyz);
    status := CamXyzCoeff(camXyz, coeff, rgbCam);
  }
}
