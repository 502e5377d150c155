/**
 * The canonical encoding behind the resolved-config hash (operator/internal/vllm/merge.go): a struct
 * whose optional fields are left out when zero.  Different configurations encode differently.
 */
module Encoding {
  import opened Wrappers

  // The values of the fields of EffectiveConfig.
  datatype Value<V> =
    | Word(s: string)
    | Count(n: int)
    | Toggle(b: bool)
    | Choice(c: Option<bool>)
    | Timing(delay: int, period: int, failures: int)
    | MaybeTiming(t: Option<(int, int, int)>)
    | Variables(vs: seq<(string, V)>)

  // The JSON value that a field becomes; a pointer that is not nil becomes what it points to.
  datatype Encoded<V> =
    | Null
    | Text(s: string)
    | Number(n: int)
    | Truth(b: bool)
    | Probe(delay: int, period: int, failures: int)
    | List(vs: seq<(string, V)>)

  function Encode<V>(v: Value<V>): Encoded<V> {
    match v
    case Word(s) => Text(s)
    case Count(n) => Number(n)
    case Toggle(b) => Truth(b)
    case Choice(c) => if c.Some? then Truth(c.value) else Null
    case Timing(d, p, f) => Probe(d, p, f)
    case MaybeTiming(t) => if t.Some? then Probe(t.value.0, t.value.1, t.value.2) else Null
    case Variables(vs) => List(vs)
  }

  // A pointer that is not nil encodes like the value it points to, and one that is nil like no such value.
  lemma PointersEncodeLikeValues<V>(b: bool, d: int, p: int, f: int)
    ensures Encode<V>(Choice(Some(b))) == Encode<V>(Toggle(b)) == Truth(b)
    ensures Encode<V>(MaybeTiming(Some((d, p, f)))) == Encode<V>(Timing(d, p, f)) == Probe(d, p, f)
    ensures Encode<V>(Choice(None)) == Encode<V>(MaybeTiming(None)) == Null
  {
  }

  // A field's tag: its name, whether a zero value is left out, and that zero value.
  datatype Row<V> = Row(name: string, omitEmpty: bool, zero: Value<V>)

  // Values of one Go type.
  predicate SameType<V>(v: Value<V>, w: Value<V>) {
    match v
    case Word(_) => w.Word?
    case Count(_) => w.Count?
    case Toggle(_) => w.Toggle?
    case Choice(_) => w.Choice?
    case Timing(_, _, _) => w.Timing?
    case MaybeTiming(_) => w.MaybeTiming?
    case Variables(_) => w.Variables?
  }

  predicate Fits<V>(rows: seq<Row<V>>, values: seq<Value<V>>) {
    |values| == |rows| && forall i :: 0 <= i < |rows| ==> SameType(values[i], rows[i].zero)
  }

  // json.Marshal of a struct: its fields in order.
  function Marshal<V(==)>(rows: seq<Row<V>>, values: seq<Value<V>>): seq<(string, Encoded<V>)>
    requires |values| == |rows|
  {
    if rows == [] then []
    else
      (if rows[0].omitEmpty && values[0] == rows[0].zero then [] else [(rows[0].name, Encode(values[0]))])
      + Marshal(rows[1..], values[1..])
  }

  // Reading it back, knowing the names and types of the fields.
  function Decode<V>(zero: Value<V>, e: Encoded<V>): Value<V> {
    match zero
    case Word(_) => if e.Text? then Word(e.s) else zero
    case Count(_) => if e.Number? then Count(e.n) else zero
    case Toggle(_) => if e.Truth? then Toggle(e.b) else zero
    case Choice(_) => if e.Truth? then Choice(Some(e.b)) else Choice(None)
    case Timing(_, _, _) => if e.Probe? then Timing(e.delay, e.period, e.failures) else zero
    case MaybeTiming(_) => if e.Probe? then MaybeTiming(Some((e.delay, e.period, e.failures))) else MaybeTiming(None)
    case Variables(_) => if e.List? then Variables(e.vs) else zero
  }

  function Unmarshal<V>(rows: seq<Row<V>>, entries: seq<(string, Encoded<V>)>): seq<Value<V>> {
    if rows == [] then []
    else if entries != [] && entries[0].0 == rows[0].name then
      [Decode(rows[0].zero, entries[0].1)] + Unmarshal(rows[1..], entries[1..])
    else [rows[0].zero] + Unmarshal(rows[1..], entries)
  }

  predicate Distinct<V>(rows: seq<Row<V>>) {
    forall i, j :: 0 <= i < j < |rows| ==> rows[i].name != rows[j].name
  }

  lemma {:induction false} MarshalNames<V>(rows: seq<Row<V>>, values: seq<Value<V>>)
    requires |values| == |rows|
    ensures Marshal(rows, values) != [] ==> exists i :: 0 <= i < |rows| && rows[i].name == Marshal(rows, values)[0].0
  {
    if rows != [] {
      MarshalNames(rows[1..], values[1..]);
      var rest := Marshal(rows[1..], values[1..]);
      if rows[0].omitEmpty && values[0] == rows[0].zero && rest != [] {
        var i :| 0 <= i < |rows[1..]| && rows[1..][i].name == rest[0].0;
        assert rows[i + 1].name == rest[0].0;
      }
    }
  }

  // Nothing is lost: the encoding determines every field, nil, false and true pointers included.
  lemma {:induction false} UnmarshalUndoesMarshal<V>(rows: seq<Row<V>>, values: seq<Value<V>>)
    requires Distinct(rows) && Fits(rows, values)
    ensures Unmarshal(rows, Marshal(rows, values)) == values
  {
    hide Encode, Decode, SameType;
    if rows != [] {
      var rest := Marshal(rows[1..], values[1..]);
      UnmarshalUndoesMarshal(rows[1..], values[1..]);
      assert values == [values[0]] + values[1..];
      assert SameType(values[0], rows[0].zero);
      DecodeUndoesEncode(rows[0].zero, values[0]);
      if rows[0].omitEmpty && values[0] == rows[0].zero {
        MarshalNames(rows[1..], values[1..]);
        assert Marshal(rows, values) == rest;
        if rest != [] {
          var i :| 0 <= i < |rows[1..]| && rows[1..][i].name == rest[0].0;
          assert rows[i + 1].name != rows[0].name;
        }
      } else {
        assert Marshal(rows, values)[1..] == rest;
      }
    }
  }

  lemma DecodeUndoesEncode<V>(zero: Value<V>, v: Value<V>)
    requires SameType(v, zero)
    ensures Decode(zero, Encode(v)) == v
  {
  }

  // ---------------------------------------------------------------- EffectiveConfig

  const FIELDS: nat := 50

  function RowAt<V>(i: nat): Row<V> {
    if i < 9 then FirstRow(i)
    else if i < 18 then SecondRow(i)
    else if i < 27 then ThirdRow(i)
    else if i < 36 then FourthRow(i)
    else if i < 45 then FifthRow(i)
    else LastRow(i)
  }

  function FirstRow<V>(i: nat): Row<V> {
    match i
    case 0 => Row("memoryRequest", true, Word(""))
    case 1 => Row("memoryLimit", true, Word(""))
    case 2 => Row("modelID", false, Word(""))
    case 3 => Row("image", false, Word(""))
    case 4 => Row("imagePullPolicy", false, Word(""))
    case 5 => Row("migResource", false, Word(""))
    case 6 => Row("migResourceCount", false, Count(0))
    case 7 => Row("quantization", true, Word(""))
    case _ => Row("dtype", true, Word(""))
  }

  function SecondRow<V>(i: nat): Row<V> {
    match i
    case 9 => Row("servedModelName", true, Word(""))
    case 10 => Row("maxModelLen", false, Count(0))
    case 11 => Row("gpuMemoryUtilization", false, Word(""))
    case 12 => Row("tensorParallelSize", false, Count(0))
    case 13 => Row("enableAutoToolChoice", false, Toggle(false))
    case 14 => Row("toolCallParser", true, Word(""))
    case 15 => Row("shmSizeLimit", false, Word(""))
    case 16 => Row("progressDeadlineSeconds", false, Count(0))
    case _ => Row("livenessProbe", false, Timing(0, 0, 0))
  }

  function ThirdRow<V>(i: nat): Row<V> {
    match i
    case 18 => Row("readinessProbe", false, Timing(0, 0, 0))
    case 19 => Row("startupProbe", true, MaybeTiming(None))
    case 20 => Row("kvCacheDtype", true, Word(""))
    case 21 => Row("enablePrefixCaching", true, Choice(None))
    case 22 => Row("cpuOffloadGiB", true, Count(0))
    case 23 => Row("maxNumBatchedTokens", true, Count(0))
    case 24 => Row("enableChunkedPrefill", true, Toggle(false))
    case 25 => Row("kvOffloadBackend", true, Word(""))
    case _ => Row("kvOffloadSize", true, Count(0))
  }

  function FourthRow<V>(i: nat): Row<V> {
    match i
    case 27 => Row("enableLora", true, Choice(None))
    case 28 => Row("loraModules", true, Word(""))
    case 29 => Row("maxLoraRank", true, Count(0))
    case 30 => Row("pvcReadOnly", true, Toggle(false))
    case 31 => Row("reasoningParser", true, Word(""))
    case 32 => Row("chatTemplate", true, Word(""))
    case 33 => Row("speculativeConfig", true, Word(""))
    case 34 => Row("limitMmPerPrompt", true, Word(""))
    case _ => Row("maxNumSeqs", true, Count(0))
  }

  function FifthRow<V>(i: nat): Row<V> {
    match i
    case 36 => Row("kvCacheDtypeSkipLayers", true, Word(""))
    case 37 => Row("mambaCacheMode", true, Word(""))
    case 38 => Row("mambaBackend", true, Word(""))
    case 39 => Row("enforceEager", true, Choice(None))
    case 40 => Row("compilationConfig", true, Word(""))
    case 41 => Row("env", true, Variables([]))
    case 42 => Row("modelRevision", true, Word(""))
    case 43 => Row("codeRevision", true, Word(""))
    case _ => Row("tokenizerRevision", true, Word(""))
  }

  function LastRow<V>(i: nat): Row<V> {
    match i
    case 45 => Row("trustRemoteCode", true, Toggle(false))
    case 46 => Row("disableCustomAllReduce", true, Toggle(false))
    case 47 => Row("flashinferAutotune", true, Choice(None))
    case 48 => Row("engramConfig", true, Word(""))
    case _ => Row("securityProfile", true, Word(""))
  }

  // The struct's fields, in order.
  function Rows<V>(): (r: seq<Row<V>>)
    ensures |r| == FIELDS
  {
    seq(FIELDS, i requires 0 <= i < FIELDS => RowAt(i))
  }

  // Their names, in order, and which of them are written even when zero.
  lemma FieldNames<V>()
    ensures Names<V>(0, 9) == [
      "memoryRequest", "memoryLimit", "modelID", "image", "imagePullPolicy", "migResource", "migResourceCount",
      "quantization", "dtype"]
    ensures Names<V>(9, 18) == [
      "servedModelName", "maxModelLen", "gpuMemoryUtilization", "tensorParallelSize", "enableAutoToolChoice",
      "toolCallParser", "shmSizeLimit", "progressDeadlineSeconds", "livenessProbe"]
    ensures Names<V>(18, 27) == [
      "readinessProbe", "startupProbe", "kvCacheDtype", "enablePrefixCaching", "cpuOffloadGiB", "maxNumBatchedTokens",
      "enableChunkedPrefill", "kvOffloadBackend", "kvOffloadSize"]
    ensures Names<V>(27, 36) == [
      "enableLora", "loraModules", "maxLoraRank", "pvcReadOnly", "reasoningParser", "chatTemplate", "speculativeConfig",
      "limitMmPerPrompt", "maxNumSeqs"]
    ensures Names<V>(36, 45) == [
      "kvCacheDtypeSkipLayers", "mambaCacheMode", "mambaBackend", "enforceEager", "compilationConfig", "env",
      "modelRevision", "codeRevision", "tokenizerRevision"]
    ensures Names<V>(45, 50) == [
      "trustRemoteCode", "disableCustomAllReduce", "flashinferAutotune", "engramConfig", "securityProfile"]
  {
  }

  function Names<V>(i: nat, k: nat): seq<string>
    requires i <= k <= FIELDS
  {
    seq(k - i, j requires 0 <= j < k - i => RowAt<V>(i + j).name)
  }

  // A field is written unless it may be left out and is zero, and those that may not be are the ones that
  // every configuration has.
  lemma {:induction false} WrittenUnlessZero<V>(rows: seq<Row<V>>, values: seq<Value<V>>, i: nat)
    requires Distinct(rows) && |values| == |rows| && i < |rows|
    ensures (exists e :: e in Marshal(rows, values) && e.0 == rows[i].name) <==> !(rows[i].omitEmpty && values[i] == rows[i].zero)
    ensures !(rows[i].omitEmpty && values[i] == rows[i].zero) ==> (rows[i].name, Encode(values[i])) in Marshal(rows, values)
  {
    hide Encode;
    var rest := Marshal(rows[1..], values[1..]);
    var first := if rows[0].omitEmpty && values[0] == rows[0].zero then [] else [(rows[0].name, Encode(values[0]))];
    assert Marshal(rows, values) == first + rest;
    if i > 0 {
      WrittenUnlessZero(rows[1..], values[1..], i - 1);
      assert rows[1..][i - 1] == rows[i] && values[1..][i - 1] == values[i];
      assert rows[0].name != rows[i].name;
      assert forall e :: e in Marshal(rows, values) <==> e in first || e in rest;
    } else {
      forall e | e in rest ensures e.0 != rows[0].name {
        var j := EntryHasItsRow(rows[1..], values[1..], e);
        assert rows[j + 1].name == e.0;
      }
    }
  }

  lemma {:induction false} EntryHasItsRow<V>(rows: seq<Row<V>>, values: seq<Value<V>>, e: (string, Encoded<V>)) returns (i: nat)
    requires |values| == |rows| && e in Marshal(rows, values)
    ensures i < |rows| && rows[i].name == e.0
  {
    hide Encode;
    if e in Marshal(rows[1..], values[1..]) {
      i := EntryHasItsRow(rows[1..], values[1..], e);
      i := i + 1;
    } else {
      i := 0;
    }
  }

  lemma AlwaysWritten<V>(i: nat)
    requires i < FIELDS
    ensures !RowAt<V>(i).omitEmpty <==> i in {2, 3, 4, 5, 6, 10, 11, 12, 13, 15, 16, 17, 18}
  {
  }

  // Where a field of this name would stand.
  function Place(name: string): nat {
    match |name|
    case 3 => 41
    case 5 => if name[0] == 'i' then 3 else 8
    case 7 => 2
    case 10 => if name[0] == 'e' then 27 else 35
    case 11 =>
      if name[5] == 'y' then 1 else if name[5] == 's' then 5 else if name[5] == 'd' then 10
      else if name[5] == 'o' then 28 else if name[5] == 'r' then 29 else 30
    case 12 =>
      if name[7] == 'a' then 7 else if name[7] == 'L' then 15 else if name[7] == 'P' then 19
      else if name[7] == 'D' then 20 else if name[7] == 'p' then 32 else if name[7] == 'c' then 38
      else if name[7] == 'E' then 39 else if name[7] == 'i' then 43 else 48
    case 13 =>
      if name[1] == 'e' then 0 else if name[1] == 'i' then 17 else if name[1] == 'p' then 22
      else if name[1] == 'v' then 26 else 42
    case 14 => if name[0] == 't' then 14 else if name[0] == 'r' then 18 else 37
    case 15 =>
      if name[5] == 'P' then 4 else if name[5] == 'd' then 9 else if name[5] == 'n' then 31
      else if name[5] == 'R' then 45 else 49
    case 16 => if name[0] == 'm' then 6 else if name[0] == 'k' then 25 else 34
    case 17 => if name[0] == 's' then 33 else if name[0] == 'c' then 40 else 44
    case 18 => if name[0] == 't' then 12 else 47
    case 19 => if name[0] == 'e' then 21 else 23
    case 20 => if name[6] == 'o' then 11 else if name[6] == 'A' then 13 else 24
    case 22 => if name[0] == 'k' then 36 else 46
    case 23 => 16
    case _ => FIELDS
  }

  lemma FirstPlaces<V>(i: nat)
    requires 0 <= i < 9
    ensures Place(FirstRow<V>(i).name) == i
  {
  }

  lemma SecondPlaces<V>(i: nat)
    requires 9 <= i < 18
    ensures Place(SecondRow<V>(i).name) == i
  {
  }

  lemma ThirdPlaces<V>(i: nat)
    requires 18 <= i < 27
    ensures Place(ThirdRow<V>(i).name) == i
  {
  }

  lemma FourthPlaces<V>(i: nat)
    requires 27 <= i < 36
    ensures Place(FourthRow<V>(i).name) == i
  {
  }

  lemma FifthPlaces<V>(i: nat)
    requires 36 <= i < 45
    ensures Place(FifthRow<V>(i).name) == i
  {
  }

  lemma LastPlaces<V>(i: nat)
    requires 45 <= i < 50
    ensures Place(LastRow<V>(i).name) == i
  {
  }

  lemma PlaceOfRow<V>(i: nat)
    requires i < FIELDS
    ensures Place(RowAt<V>(i).name) == i
  {
    hide Place, FirstRow, SecondRow, ThirdRow, FourthRow, FifthRow, LastRow;
    if i < 9 { FirstPlaces<V>(i); }
    else if i < 18 { SecondPlaces<V>(i); }
    else if i < 27 { ThirdPlaces<V>(i); }
    else if i < 36 { FourthPlaces<V>(i); }
    else if i < 45 { FifthPlaces<V>(i); }
    else { LastPlaces<V>(i); }
  }

  // Two resolved configurations with the same encoding are the same configuration.
  lemma EncodingIsInjective<V>(a: seq<Value<V>>, b: seq<Value<V>>)
    requires Fits(Rows(), a) && Fits(Rows(), b)
    ensures Marshal(Rows(), a) == Marshal(Rows(), b) <==> a == b
  {
    hide RowAt, Place, Fits, Marshal, Unmarshal;
    forall i, j | 0 <= i < j < FIELDS ensures RowAt<V>(i).name != RowAt<V>(j).name {
      PlaceOfRow<V>(i);
      PlaceOfRow<V>(j);
    }
    assert Distinct(Rows<V>());
    UnmarshalUndoesMarshal(Rows(), a);
    UnmarshalUndoesMarshal(Rows(), b);
  }

  // ---------------------------------------------------------------- the security profile

  const SECURITY_PROFILE: nat := 49
  const DEFAULT_PROFILE: string := "default"

  // The later of preset and override, with an explicit default read as no profile.
  function ResolvedProfile(initial: string, preset: Option<string>, override: Option<string>): string {
    var chosen := if override.Some? then override.value else if preset.Some? then preset.value else initial;
    if chosen == DEFAULT_PROFILE then "" else chosen
  }

  class EffectiveConfig<V(==)> {
    var fields: seq<Value<V>>

    constructor ()
      ensures fields == seq(FIELDS, i requires 0 <= i < FIELDS => Rows<V>()[i].zero)
    {
      fields := seq(FIELDS, i requires 0 <= i < FIELDS => Rows<V>()[i].zero);
    }

    // resolveSecurityProfile179; `override` is None when there are no overrides or they name no profile.
    method ResolveSecurityProfile(preset: Option<string>, override: Option<string>)
      requires |fields| == FIELDS && fields[SECURITY_PROFILE].Word?
      modifies this
      ensures fields == old(WithProfile(fields, preset, override))
    {
      if preset.Some? {
        fields := fields[SECURITY_PROFILE := Word(preset.value)];
      }
      if override.Some? {
        fields := fields[SECURITY_PROFILE := Word(override.value)];
      }
      if fields[SECURITY_PROFILE] == Word(DEFAULT_PROFILE) {
        fields := fields[SECURITY_PROFILE := Word("")];
      }
    }
  }

  function WithProfile<V>(fields: seq<Value<V>>, preset: Option<string>, override: Option<string>): seq<Value<V>>
    requires |fields| == FIELDS && fields[SECURITY_PROFILE].Word?
  {
    fields[SECURITY_PROFILE := Word(ResolvedProfile(fields[SECURITY_PROFILE].s, preset, override))]
  }

  // The override's profile if it names one, else the preset's, else the one there was; a default is none.
  lemma ProfileIs(initial: string, preset: string, override: string)
    ensures ResolvedProfile(initial, Some(preset), Some(override)) == ResolvedProfile(initial, None, Some(override))
            == (if override == "default" then "" else override)
    ensures ResolvedProfile(initial, Some(preset), None) == (if preset == "default" then "" else preset)
    ensures ResolvedProfile(initial, None, None) == (if initial == "default" then "" else initial)
  {
  }

  lemma ProfileIsItsField<V>()
    ensures RowAt<V>(SECURITY_PROFILE).name == "securityProfile"
  {
  }

  // An explicit default in the preset encodes like no profile there.  An override naming the default
  // encodes like no override exactly when the preset has no profile of its own for it to undo.
  lemma DefaultProfileIsAbsence<V>(fields: seq<Value<V>>, preset: Option<string>, override: Option<string>)
    requires Fits(Rows(), fields) && fields[SECURITY_PROFILE] == Word("")
    ensures Marshal(Rows(), WithProfile(fields, Some(DEFAULT_PROFILE), override)) ==
            Marshal(Rows(), WithProfile(fields, None, override))
    ensures Marshal(Rows(), WithProfile(fields, preset, Some(DEFAULT_PROFILE))) ==
            Marshal(Rows(), WithProfile(fields, preset, None)) <==>
            preset.None? || preset.value == "" || preset.value == DEFAULT_PROFILE
  {
    hide Marshal, RowAt;
    ProfileFits(fields, preset, Some(DEFAULT_PROFILE));
    ProfileFits(fields, preset, None);
    var a, b := WithProfile(fields, preset, Some(DEFAULT_PROFILE)), WithProfile(fields, preset, None);
    EncodingIsInjective(a, b);
    assert a == b <==> a[SECURITY_PROFILE] == b[SECURITY_PROFILE];
  }

  lemma ProfileFits<V>(fields: seq<Value<V>>, preset: Option<string>, override: Option<string>)
    requires Fits(Rows(), fields) && fields[SECURITY_PROFILE].Word?
    ensures Fits(Rows(), WithProfile(fields, preset, override))
  {
    hide RowAt;
    assert SameType(fields[SECURITY_PROFILE], Rows<V>()[SECURITY_PROFILE].zero);
  }
}
