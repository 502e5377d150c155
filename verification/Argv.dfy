/**
 * buildArgs (operator/internal/vllm/deployment.go, flags_178.go) as a printer.  A left-to-right
 * reader that knows only which flags take a value undoes it, whatever strings the values hold.
 */
module Argv {
  import opened Wrappers
  import opened Text
  import opened Flags
  import Lora

  // The fields of the resolved configuration that buildArgs reads.
  datatype Config = Config(
    modelID: string, dtype: string, quantization: string, maxModelLen: int, gpuMemoryUtilization: string,
    tensorParallelSize: int, enableAutoToolChoice: bool, toolCallParser: string, reasoningParser: string,
    chatTemplate: string, kvCacheDtype: string, mambaCacheMode: string, mambaBackend: string,
    enablePrefixCaching: Option<bool>, servedModelName: string, cpuOffloadGiB: int, maxNumBatchedTokens: int,
    enableChunkedPrefill: bool, kvOffloadBackend: string, kvOffloadSize: int, speculativeConfig: string,
    limitMmPerPrompt: string, maxNumSeqs: int, kvCacheDtypeSkipLayers: string, enforceEager: Option<bool>,
    compilationConfig: string, enableLora: Option<bool>, loraModules: string, maxLoraRank: int,
    modelRevision: string, codeRevision: string, tokenizerRevision: string, trustRemoteCode: bool,
    disableCustomAllReduce: bool, flashinferAutotune: Option<bool>, engramConfig: string
  )

  const HTTP_PORT: nat := 8000
  const LMCACHE: string := "lmcache"

  // What a flag shows: nothing, itself, or itself and a value.
  datatype Setting = Absent | Present | Value(text: string)

  function Given(text: string): Setting {
    if text == "" then Absent else Value(text)
  }

  function Positive(n: int, least: int): Setting {
    if n >= least then Value(Itoa(n)) else Absent
  }

  function When(b: bool): Setting {
    if b then Present else Absent
  }

  // The one setting that each flag is given, by its own field.
  ghost function Shown(e: Config, f: Flag): Setting {
    match f
    case Serving(x) => ServingShown(e, x)
    case Parsing(x) => ParsingShown(e, x)
    case Cache(x) => CacheShown(e, x)
    case Offload(x) => OffloadShown(e, x)
    case Tuning(x) => TuningShown(e, x)
    case Adapter(x) => AdapterShown(e, x)
    case LongContext(x) => LongContextShown(e, x)
  }

  ghost function ServingShown(e: Config, f: ServingFlag): Setting {
    match f
    case Model => Value(e.modelID)
    case Dtype => Given(e.dtype)
    case Quantization => Given(e.quantization)
    case Port => Value(Itoa(HTTP_PORT))
    case MaxModelLen => Value(Itoa(e.maxModelLen))
    case GpuMemoryUtilization => Value(e.gpuMemoryUtilization)
  }

  ghost function ParsingShown(e: Config, f: ParsingFlag): Setting {
    match f
    case TensorParallelSize => Positive(e.tensorParallelSize, 2)
    case EnableAutoToolChoice => When(e.enableAutoToolChoice)
    case ToolCallParser => Given(e.toolCallParser)
    case ReasoningParser => Given(e.reasoningParser)
    case ChatTemplate => Given(e.chatTemplate)
  }

  ghost function CacheShown(e: Config, f: CacheFlag): Setting {
    match f
    case KvCacheDtype => Given(e.kvCacheDtype)
    case MambaCacheMode => Given(e.mambaCacheMode)
    case MambaBackend => Given(e.mambaBackend)
    case EnablePrefixCaching => When(e.enablePrefixCaching == Some(true))
    case NoEnablePrefixCaching => When(e.enablePrefixCaching == Some(false))
  }

  ghost function OffloadShown(e: Config, f: OffloadFlag): Setting {
    match f
    case ServedModelName => Given(e.servedModelName)
    case CpuOffloadGb => Positive(e.cpuOffloadGiB, 1)
    case MaxNumBatchedTokens => Positive(e.maxNumBatchedTokens, 1)
    case EnableChunkedPrefill => When(e.enableChunkedPrefill)
    case KvTransferConfig =>
      if e.kvOffloadBackend == LMCACHE then Value(KVTransferConfig(e.kvOffloadSize)) else Absent
  }

  ghost function TuningShown(e: Config, f: TuningFlag): Setting {
    match f
    case SpeculativeConfig => Given(e.speculativeConfig)
    case LimitMmPerPrompt => Given(e.limitMmPerPrompt)
    case MaxNumSeqs => Positive(e.maxNumSeqs, 1)
    case KvCacheDtypeSkipLayers => Given(e.kvCacheDtypeSkipLayers)
    case EnforceEager => When(e.enforceEager == Some(true))
    case CompilationConfig => Given(e.compilationConfig)
  }

  ghost function AdapterShown(e: Config, f: AdapterFlag): Setting {
    match f
    case EnableLora => When(e.enableLora == Some(true))
    case LoraModules =>
      if e.enableLora == Some(true) && Lora.Accepts(e.loraModules) then Given(e.loraModules) else Absent
    case MaxLoraRank => if e.enableLora == Some(true) then Positive(e.maxLoraRank, 1) else Absent
  }

  ghost function LongContextShown(e: Config, f: LongContextFlag): Setting {
    match f
    case Revision => Given(e.modelRevision)
    case CodeRevision => Given(e.codeRevision)
    case TokenizerRevision => Given(e.tokenizerRevision)
    case TrustRemoteCode => When(e.trustRemoteCode)
    case DisableCustomAllReduce => When(e.disableCustomAllReduce)
    case EnableFlashinferAutotune => When(e.flashinferAutotune == Some(true))
    case NoEnableFlashinferAutotune => When(e.flashinferAutotune == Some(false))
    case EngramConfig => Given(e.engramConfig)
  }

  // ---------------------------------------------------------------- the nested JSON value

  const KV_HEAD: string := "{\"kv_connector\":\"LMCacheConnectorV1\",\"kv_role\":\"kv_both\""
  const KV_SIZE: string := ",\"kv_buffer_size\":"
  const GIB: nat := 1073741824

  // buildKVTransferConfig: the buffer size is written in bytes, and only when it is positive.
  function KVTransferConfig(sizeGiB: int): string {
    KV_HEAD + (if sizeGiB > 0 then KV_SIZE + Itoa(sizeGiB * GIB) else "") + "}"
  }

  // The size, in GiB, that such a value asks for.
  function KVSize(text: string): int {
    if |text| <= |KV_HEAD| + 1 + |KV_SIZE| then 0
    else
      var bytes := Integer(text[|KV_HEAD| + |KV_SIZE|..|text| - 1]);
      if bytes.None? then 0 else bytes.value / GIB
  }

  lemma KVSizeIsRead(sizeGiB: int)
    ensures KVSize(KVTransferConfig(sizeGiB)) == if sizeGiB > 0 then sizeGiB else 0
  {
    var text := KVTransferConfig(sizeGiB);
    if sizeGiB > 0 {
      var digits := Itoa(sizeGiB * GIB);
      IntegerOfItoa(sizeGiB * GIB);
      assert text == (KV_HEAD + KV_SIZE) + digits + "}";
      assert text[|KV_HEAD| + |KV_SIZE|..|text| - 1] == digits;
    }
  }

  // ---------------------------------------------------------------- printing and reading

  datatype Segment = Segment(flag: Flag, setting: Setting)

  predicate WellFormed(s: Segment) {
    if TakesValue(s.flag) then s.setting.Value? else s.setting.Present?
  }

  function Words(s: Segment): seq<string> {
    match s.setting
    case Absent => []
    case Present => [Name(s.flag)]
    case Value(text) => [Name(s.flag), text]
  }

  function Print(segments: seq<Segment>): seq<string> {
    if segments == [] then [] else Words(segments[0]) + Print(segments[1..])
  }

  // Left to right, knowing only the arity of each flag.
  function Read(args: seq<string>): Option<seq<Segment>>
    decreases |args|
  {
    if args == [] then Some([])
    else
      var f := FlagOf(args[0]);
      if f.None? then None
      else if !TakesValue(f.value) then
        var rest := Read(args[1..]);
        if rest.None? then None else Some([Segment(f.value, Present)] + rest.value)
      else if |args| < 2 then None
      else
        var rest := Read(args[2..]);
        if rest.None? then None else Some([Segment(f.value, Value(args[1]))] + rest.value)
  }

  lemma {:induction false} ReadUndoesPrint(segments: seq<Segment>)
    requires forall s :: s in segments ==> WellFormed(s)
    ensures Read(Print(segments)) == Some(segments)
  {
    hide FlagOf, Name, TakesValue;
    if segments != [] {
      var s, rest := segments[0], segments[1..];
      ReadUndoesPrint(rest);
      FlagOfIsExact(s.flag, Name(s.flag));
      assert WellFormed(s);
      var args := Print(segments);
      assert args == Words(s) + Print(rest);
      assert args[0] == Name(s.flag) && args[|Words(s)|..] == Print(rest);
      assert segments == [s] + rest;
    }
  }

  lemma {:induction false} PrintConcat(a: seq<Segment>, b: seq<Segment>)
    ensures Print(a + b) == Print(a) + Print(b)
  {
    hide Words;
    if a == [] {
      assert a + b == b;
    } else {
      PrintConcat(a[1..], b);
      assert (a + b)[1..] == a[1..] + b;
    }
  }

  // ---------------------------------------------------------------- what buildArgs prints

  ghost function Shows(e: Config, f: Flag): seq<Segment> {
    if Shown(e, f).Absent? then [] else [Segment(f, Shown(e, f))]
  }

  // The segments of the flags from the i-th up to the k-th.
  ghost function Between(e: Config, i: nat, k: nat): seq<Segment>
    requires k <= FLAGS
  {
    if k <= i then [] else Between(e, i, k - 1) + Shows(e, FlagAt(k - 1))
  }

  ghost function View(e: Config): seq<Segment> {
    Between(e, 0, FLAGS)
  }

  lemma {:induction false} BetweenConcat(e: Config, i: nat, j: nat, k: nat)
    requires i <= j <= k <= FLAGS
    ensures Between(e, i, j) + Between(e, j, k) == Between(e, i, k)
    decreases k
  {
    hide Shows, FlagAt;
    if j < k { BetweenConcat(e, i, j, k - 1); }
  }

  // `args` holds what the flags from the i-th up to the k-th print.
  ghost predicate Holds(e: Config, i: nat, k: nat, args: seq<string>) {
    k <= FLAGS && args == Print(Between(e, i, k))
  }

  predicate Adds(f: Flag, setting: Setting, was: seq<string>, args: seq<string>) {
    match setting
    case Absent => args == was
    case Present => args == was + [Name(f)]
    case Value(text) => args == was + [Name(f), text]
  }

  lemma Next(e: Config, i: nat, f: Flag, was: seq<string>, args: seq<string>)
    requires i <= Rank(f) && Holds(e, i, Rank(f), was) && Adds(f, Shown(e, f), was, args)
    ensures Holds(e, i, Rank(f) + 1, args)
  {
    hide Shown, FlagAt, Rank, Name;
    FlagAtRank(f);
    PrintConcat(Between(e, i, Rank(f)), Shows(e, f));
    assert Words(Segment(f, Shown(e, f))) + [] == Words(Segment(f, Shown(e, f)));
  }

  // A flag and its negation, of which a pointer to a boolean chooses at most one.
  lemma NextPair(e: Config, i: nat, f: Flag, g: Flag, choice: Option<bool>, was: seq<string>, args: seq<string>)
    requires i <= Rank(f) && Rank(g) == Rank(f) + 1 && Holds(e, i, Rank(f), was)
    requires Shown(e, f) == When(choice == Some(true)) && Shown(e, g) == When(choice == Some(false))
    requires Adds(if choice == Some(true) then f else g, When(choice.Some?), was, args)
    ensures Holds(e, i, Rank(g) + 1, args)
  {
    hide Shown, Rank, Name, Holds;
    var between := if choice == Some(true) then args else was;
    if choice.Some? { assert choice.value == true || choice.value == false; }
    Next(e, i, f, was, between);
    Next(e, i, g, between, args);
  }

  method BuildArgs(e: Config) returns (args: seq<string>)
    ensures args == Print(View(e))
  {
    hide Holds, Print, Between;
    args := BuildServingArgs(e);
    var more := BuildParsingArgs(e);
    Together(e, 0, 6, 11, args, more);
    args := args + more;
    more := BuildCacheArgs(e);
    Together(e, 0, 11, 16, args, more);
    args := args + more;
    more := BuildOffloadArgs(e);
    Together(e, 0, 16, 21, args, more);
    args := args + more;
    more := BuildTuningArgs(e);
    Together(e, 0, 21, 27, args, more);
    args := args + more;
    more := BuildAdapterArgs(e);
    Together(e, 0, 27, 30, args, more);
    args := args + more;
    more := BuildLongContextFlagArgs(e);
    Together(e, 0, 30, FLAGS, args, more);
    args := args + more;
    Whole(e, args);
  }

  lemma Whole(e: Config, args: seq<string>)
    requires Holds(e, 0, FLAGS, args)
    ensures args == Print(View(e))
  {
  }

  lemma Nothing(e: Config, i: nat)
    requires i <= FLAGS
    ensures Holds(e, i, i, [])
  {
  }

  lemma Together(e: Config, i: nat, j: nat, k: nat, args: seq<string>, more: seq<string>)
    requires i <= j <= k && Holds(e, i, j, args) && Holds(e, j, k, more)
    ensures Holds(e, i, k, args + more)
  {
    BetweenConcat(e, i, j, k);
    PrintConcat(Between(e, i, j), Between(e, j, k));
  }

  method BuildServingArgs(e: Config) returns (args: seq<string>)
    ensures Holds(e, 0, 6, args)
  {
    hide Name, Itoa, KVTransferConfig, FlagAt, Holds, Print, Between, Lora.Accepts;
    args := [];
    ghost var was := args;
    Nothing(e, 0);
    args := [Name(Serving(Model)), e.modelID];
    Next(e, 0, Serving(Model), was, args);
    was := args;
    if e.dtype != "" { args := args + [Name(Serving(Dtype)), e.dtype]; }
    Next(e, 0, Serving(Dtype), was, args);
    was := args;
    if e.quantization != "" { args := args + [Name(Serving(Quantization)), e.quantization]; }
    Next(e, 0, Serving(Quantization), was, args);
    was := args;
    args := args + [Name(Serving(Port)), Itoa(HTTP_PORT)];
    Next(e, 0, Serving(Port), was, args);
    was := args;
    args := args + [Name(Serving(MaxModelLen)), Itoa(e.maxModelLen)];
    Next(e, 0, Serving(MaxModelLen), was, args);
    was := args;
    args := args + [Name(Serving(GpuMemoryUtilization)), e.gpuMemoryUtilization];
    Next(e, 0, Serving(GpuMemoryUtilization), was, args);
  }

  method BuildParsingArgs(e: Config) returns (args: seq<string>)
    ensures Holds(e, 6, 11, args)
  {
    hide Name, Itoa, KVTransferConfig, FlagAt, Holds, Print, Between, Lora.Accepts;
    args := [];
    ghost var was := args;
    Nothing(e, 6);
    if e.tensorParallelSize > 1 { args := args + [Name(Parsing(TensorParallelSize)), Itoa(e.tensorParallelSize)]; }
    Next(e, 6, Parsing(TensorParallelSize), was, args);
    was := args;
    if e.enableAutoToolChoice { args := args + [Name(Parsing(EnableAutoToolChoice))]; }
    Next(e, 6, Parsing(EnableAutoToolChoice), was, args);
    was := args;
    if e.toolCallParser != "" { args := args + [Name(Parsing(ToolCallParser)), e.toolCallParser]; }
    Next(e, 6, Parsing(ToolCallParser), was, args);
    was := args;
    if e.reasoningParser != "" { args := args + [Name(Parsing(ReasoningParser)), e.reasoningParser]; }
    Next(e, 6, Parsing(ReasoningParser), was, args);
    was := args;
    if e.chatTemplate != "" { args := args + [Name(Parsing(ChatTemplate)), e.chatTemplate]; }
    Next(e, 6, Parsing(ChatTemplate), was, args);
  }

  method BuildCacheArgs(e: Config) returns (args: seq<string>)
    ensures Holds(e, 11, 16, args)
  {
    hide Name, Itoa, KVTransferConfig, FlagAt, Holds, Print, Between, Lora.Accepts;
    args := [];
    ghost var was := args;
    Nothing(e, 11);
    if e.kvCacheDtype != "" { args := args + [Name(Cache(KvCacheDtype)), e.kvCacheDtype]; }
    Next(e, 11, Cache(KvCacheDtype), was, args);
    was := args;
    if e.mambaCacheMode != "" { args := args + [Name(Cache(MambaCacheMode)), e.mambaCacheMode]; }
    Next(e, 11, Cache(MambaCacheMode), was, args);
    was := args;
    if e.mambaBackend != "" { args := args + [Name(Cache(MambaBackend)), e.mambaBackend]; }
    Next(e, 11, Cache(MambaBackend), was, args);
    was := args;
    if e.enablePrefixCaching.Some? {
      if e.enablePrefixCaching.value {
        args := args + [Name(Cache(EnablePrefixCaching))];
      } else {
        args := args + [Name(Cache(NoEnablePrefixCaching))];
      }
    }
    NextPair(e, 11, Cache(EnablePrefixCaching), Cache(NoEnablePrefixCaching), e.enablePrefixCaching, was, args);
  }

  method BuildOffloadArgs(e: Config) returns (args: seq<string>)
    ensures Holds(e, 16, 21, args)
  {
    hide Name, Itoa, KVTransferConfig, FlagAt, Holds, Print, Between, Lora.Accepts;
    args := [];
    ghost var was := args;
    Nothing(e, 16);
    if e.servedModelName != "" { args := args + [Name(Offload(ServedModelName)), e.servedModelName]; }
    Next(e, 16, Offload(ServedModelName), was, args);
    was := args;
    if e.cpuOffloadGiB > 0 { args := args + [Name(Offload(CpuOffloadGb)), Itoa(e.cpuOffloadGiB)]; }
    Next(e, 16, Offload(CpuOffloadGb), was, args);
    was := args;
    if e.maxNumBatchedTokens > 0 { args := args + [Name(Offload(MaxNumBatchedTokens)), Itoa(e.maxNumBatchedTokens)]; }
    Next(e, 16, Offload(MaxNumBatchedTokens), was, args);
    was := args;
    if e.enableChunkedPrefill { args := args + [Name(Offload(EnableChunkedPrefill))]; }
    Next(e, 16, Offload(EnableChunkedPrefill), was, args);
    was := args;
    if e.kvOffloadBackend == LMCACHE {
      args := args + [Name(Offload(KvTransferConfig)), KVTransferConfig(e.kvOffloadSize)];
    }
    Next(e, 16, Offload(KvTransferConfig), was, args);
  }

  method BuildTuningArgs(e: Config) returns (args: seq<string>)
    ensures Holds(e, 21, 27, args)
  {
    hide Name, Itoa, KVTransferConfig, FlagAt, Holds, Print, Between, Lora.Accepts;
    args := [];
    ghost var was := args;
    Nothing(e, 21);
    if e.speculativeConfig != "" { args := args + [Name(Tuning(SpeculativeConfig)), e.speculativeConfig]; }
    Next(e, 21, Tuning(SpeculativeConfig), was, args);
    was := args;
    if e.limitMmPerPrompt != "" { args := args + [Name(Tuning(LimitMmPerPrompt)), e.limitMmPerPrompt]; }
    Next(e, 21, Tuning(LimitMmPerPrompt), was, args);
    was := args;
    if e.maxNumSeqs > 0 { args := args + [Name(Tuning(MaxNumSeqs)), Itoa(e.maxNumSeqs)]; }
    Next(e, 21, Tuning(MaxNumSeqs), was, args);
    was := args;
    if e.kvCacheDtypeSkipLayers != "" {
      args := args + [Name(Tuning(KvCacheDtypeSkipLayers)), e.kvCacheDtypeSkipLayers];
    }
    Next(e, 21, Tuning(KvCacheDtypeSkipLayers), was, args);
    was := args;
    if e.enforceEager.Some? && e.enforceEager.value { args := args + [Name(Tuning(EnforceEager))]; }
    Next(e, 21, Tuning(EnforceEager), was, args);
    was := args;
    if e.compilationConfig != "" { args := args + [Name(Tuning(CompilationConfig)), e.compilationConfig]; }
    Next(e, 21, Tuning(CompilationConfig), was, args);
  }

  method BuildAdapterArgs(e: Config) returns (args: seq<string>)
    ensures Holds(e, 27, 30, args)
  {
    hide Name, Itoa, KVTransferConfig, FlagAt, Holds, Print, Between, Lora.Accepts;
    args := [];
    ghost var was := args;
    Nothing(e, 27);
    if e.enableLora.Some? && e.enableLora.value {
      args := args + [Name(Adapter(EnableLora))];
      Next(e, 27, Adapter(EnableLora), was, args);
      was := args;
      if e.loraModules != "" {
        var refusal := Lora.ValidateLoraModules(e.loraModules);
        if refusal.None? { args := args + [Name(Adapter(LoraModules)), e.loraModules]; }
      }
      Next(e, 27, Adapter(LoraModules), was, args);
      was := args;
      if e.maxLoraRank > 0 { args := args + [Name(Adapter(MaxLoraRank)), Itoa(e.maxLoraRank)]; }
      Next(e, 27, Adapter(MaxLoraRank), was, args);
    } else {
      Next(e, 27, Adapter(EnableLora), was, args);
      Next(e, 27, Adapter(LoraModules), was, args);
      Next(e, 27, Adapter(MaxLoraRank), was, args);
    }
  }

  method BuildLongContextFlagArgs(e: Config) returns (args: seq<string>)
    ensures Holds(e, 30, 38, args)
  {
    hide Name, Itoa, KVTransferConfig, FlagAt, Holds, Print, Between, Lora.Accepts;
    args := [];
    ghost var was := args;
    Nothing(e, 30);
    if e.modelRevision != "" { args := args + [Name(LongContext(Revision)), e.modelRevision]; }
    Next(e, 30, LongContext(Revision), was, args);
    was := args;
    if e.codeRevision != "" { args := args + [Name(LongContext(CodeRevision)), e.codeRevision]; }
    Next(e, 30, LongContext(CodeRevision), was, args);
    was := args;
    if e.tokenizerRevision != "" { args := args + [Name(LongContext(TokenizerRevision)), e.tokenizerRevision]; }
    Next(e, 30, LongContext(TokenizerRevision), was, args);
    was := args;
    if e.trustRemoteCode { args := args + [Name(LongContext(TrustRemoteCode))]; }
    Next(e, 30, LongContext(TrustRemoteCode), was, args);
    was := args;
    if e.disableCustomAllReduce { args := args + [Name(LongContext(DisableCustomAllReduce))]; }
    Next(e, 30, LongContext(DisableCustomAllReduce), was, args);
    was := args;
    if e.flashinferAutotune.Some? {
      if e.flashinferAutotune.value {
        args := args + [Name(LongContext(EnableFlashinferAutotune))];
      } else {
        args := args + [Name(LongContext(NoEnableFlashinferAutotune))];
      }
    }
    NextPair(e, 30, LongContext(EnableFlashinferAutotune), LongContext(NoEnableFlashinferAutotune),
             e.flashinferAutotune, was, args);
    was := args;
    if e.engramConfig != "" { args := args + [Name(LongContext(EngramConfig)), e.engramConfig]; }
    Next(e, 30, LongContext(EngramConfig), was, args);
  }

  // ---------------------------------------------------------------- the round trip

  // The configuration as the command line can express it: sizes that ask for nothing are zero,
  // and settings of a feature that is off are gone.
  ghost function Normal(e: Config): Config {
    e.(tensorParallelSize := if e.tensorParallelSize > 1 then e.tensorParallelSize else 1,
       cpuOffloadGiB := NotNegative(e.cpuOffloadGiB),
       maxNumBatchedTokens := NotNegative(e.maxNumBatchedTokens),
       maxNumSeqs := NotNegative(e.maxNumSeqs),
       kvOffloadBackend := if e.kvOffloadBackend == LMCACHE then LMCACHE else "",
       kvOffloadSize := if e.kvOffloadBackend == LMCACHE then NotNegative(e.kvOffloadSize) else 0,
       enforceEager := if e.enforceEager == Some(true) then Some(true) else None,
       enableLora := if e.enableLora == Some(true) then Some(true) else None,
       loraModules := if e.enableLora == Some(true) && Lora.Accepts(e.loraModules) then e.loraModules else "",
       maxLoraRank := if e.enableLora == Some(true) then NotNegative(e.maxLoraRank) else 0)
  }

  function NotNegative(n: int): int {
    if n > 0 then n else 0
  }

  // What the segments of a command line say of a flag.
  function Said(segments: seq<Segment>, f: Flag): Setting {
    if segments == [] then Absent
    else if segments[0].flag == f then segments[0].setting
    else Said(segments[1..], f)
  }

  predicate AtMostOnce(segments: seq<Segment>) {
    forall i, j :: 0 <= i < j < |segments| ==> Rank(segments[i].flag) < Rank(segments[j].flag)
  }

  function Worded(s: Setting): string {
    if s.Value? then s.text else ""
  }

  function Counted(s: Setting, otherwise: int): int {
    if s.Value? && Integer(s.text).Some? then Integer(s.text).value else otherwise
  }

  function Pair(yes: Setting, no: Setting): Option<bool> {
    if yes.Present? then Some(true) else if no.Present? then Some(false) else None
  }

  // The configuration that a reader of the segments knows.
  function ConfigOf(segments: seq<Segment>): Config {
    Config(
      modelID := Worded(Said(segments, Serving(Model))),
      dtype := Worded(Said(segments, Serving(Dtype))),
      quantization := Worded(Said(segments, Serving(Quantization))),
      maxModelLen := Counted(Said(segments, Serving(MaxModelLen)), 0),
      gpuMemoryUtilization := Worded(Said(segments, Serving(GpuMemoryUtilization))),
      tensorParallelSize := Counted(Said(segments, Parsing(TensorParallelSize)), 1),
      enableAutoToolChoice := Said(segments, Parsing(EnableAutoToolChoice)).Present?,
      toolCallParser := Worded(Said(segments, Parsing(ToolCallParser))),
      reasoningParser := Worded(Said(segments, Parsing(ReasoningParser))),
      chatTemplate := Worded(Said(segments, Parsing(ChatTemplate))),
      kvCacheDtype := Worded(Said(segments, Cache(KvCacheDtype))),
      mambaCacheMode := Worded(Said(segments, Cache(MambaCacheMode))),
      mambaBackend := Worded(Said(segments, Cache(MambaBackend))),
      enablePrefixCaching := Pair(
        Said(segments, Cache(EnablePrefixCaching)),
        Said(segments, Cache(NoEnablePrefixCaching))),
      servedModelName := Worded(Said(segments, Offload(ServedModelName))),
      cpuOffloadGiB := Counted(Said(segments, Offload(CpuOffloadGb)), 0),
      maxNumBatchedTokens := Counted(Said(segments, Offload(MaxNumBatchedTokens)), 0),
      enableChunkedPrefill := Said(segments, Offload(EnableChunkedPrefill)).Present?,
      kvOffloadBackend := if Said(segments, Offload(KvTransferConfig)).Value? then LMCACHE else "",
      kvOffloadSize := KVSize(Worded(Said(segments, Offload(KvTransferConfig)))),
      speculativeConfig := Worded(Said(segments, Tuning(SpeculativeConfig))),
      limitMmPerPrompt := Worded(Said(segments, Tuning(LimitMmPerPrompt))),
      maxNumSeqs := Counted(Said(segments, Tuning(MaxNumSeqs)), 0),
      kvCacheDtypeSkipLayers := Worded(Said(segments, Tuning(KvCacheDtypeSkipLayers))),
      enforceEager := if Said(segments, Tuning(EnforceEager)).Present? then Some(true) else None,
      compilationConfig := Worded(Said(segments, Tuning(CompilationConfig))),
      enableLora := if Said(segments, Adapter(EnableLora)).Present? then Some(true) else None,
      loraModules := Worded(Said(segments, Adapter(LoraModules))),
      maxLoraRank := Counted(Said(segments, Adapter(MaxLoraRank)), 0),
      modelRevision := Worded(Said(segments, LongContext(Revision))),
      codeRevision := Worded(Said(segments, LongContext(CodeRevision))),
      tokenizerRevision := Worded(Said(segments, LongContext(TokenizerRevision))),
      trustRemoteCode := Said(segments, LongContext(TrustRemoteCode)).Present?,
      disableCustomAllReduce := Said(segments, LongContext(DisableCustomAllReduce)).Present?,
      flashinferAutotune := Pair(
        Said(segments, LongContext(EnableFlashinferAutotune)),
        Said(segments, LongContext(NoEnableFlashinferAutotune))),
      engramConfig := Worded(Said(segments, LongContext(EngramConfig)))
    )
  }

  lemma {:induction false} BetweenIsOrdered(e: Config, i: nat, k: nat)
    requires k <= FLAGS
    ensures AtMostOnce(Between(e, i, k))
    ensures forall s :: s in Between(e, i, k) ==>
      i <= Rank(s.flag) < k && s.setting == Shown(e, s.flag) && !s.setting.Absent?
  {
    hide Shown, Rank, FlagAt;
    if i < k {
      BetweenIsOrdered(e, i, k - 1);
      RankOfFlagAt(k - 1);
    }
  }

  lemma {:induction false} BetweenSays(e: Config, i: nat, k: nat, f: Flag)
    requires k <= FLAGS
    ensures i <= Rank(f) < k && !Shown(e, f).Absent? ==> Segment(f, Shown(e, f)) in Between(e, i, k)
  {
    hide Shown, Rank, FlagAt;
    if i < k {
      BetweenSays(e, i, k - 1, f);
      RankOfFlagAt(k - 1);
      FlagAtRank(f);
    }
  }

  lemma {:induction false} SaidOf(segments: seq<Segment>, f: Flag)
    ensures Said(segments, f).Absent? || Segment(f, Said(segments, f)) in segments
    ensures (forall s :: s in segments ==> !s.setting.Absent?) && Said(segments, f).Absent? ==>
      forall s :: s in segments ==> s.flag != f
  {
    if segments != [] {
      SaidOf(segments[1..], f);
      assert segments == [segments[0]] + segments[1..];
    }
  }

  lemma ViewSays(e: Config, f: Flag)
    ensures Said(View(e), f) == Shown(e, f)
  {
    hide Shown, Rank, Between, Said;
    BetweenIsOrdered(e, 0, FLAGS);
    BetweenSays(e, 0, FLAGS, f);
    SaidOf(View(e), f);
  }

  lemma SettingsFitArity(e: Config, f: Flag)
    ensures Shown(e, f).Absent? || WellFormed(Segment(f, Shown(e, f)))
  {
    hide Lora.Accepts, KVTransferConfig, Itoa;
  }

  // Reading what buildArgs prints gives back its segments: each flag at most once and in order,
  // each with the setting of its own field.
  lemma ArgvRoundTrip(e: Config)
    ensures Read(Print(View(e))) == Some(View(e))
    ensures AtMostOnce(View(e))
    ensures forall f :: Said(View(e), f) == Shown(e, f)
  {
    hide Shown, Rank, Between, Said, WellFormed;
    BetweenIsOrdered(e, 0, FLAGS);
    forall s | s in View(e) ensures WellFormed(s) { SettingsFitArity(e, s.flag); }
    ReadUndoesPrint(View(e));
    forall f ensures Said(View(e), f) == Shown(e, f) { ViewSays(e, f); }
  }

  // The reader ends up knowing exactly the normal configuration.
  lemma ConfigIsRecovered(e: Config)
    ensures ConfigOf(View(e)) == Normal(e)
  {
    hide View, Said, Shown, Lora.Accepts, KVTransferConfig, KVSize, Itoa, Integer;
    ServingRecovered(e);
    ParsingRecovered(e);
    CacheRecovered(e);
    OffloadRecovered(e);
    TuningRecovered(e);
    AdapterRecovered(e);
    LongContextRecovered(e);
  }

  lemma ServingFacts(e: Config)
    ensures Shown(e, Serving(Model)) == Value(e.modelID)
    ensures Shown(e, Serving(Dtype)) == Given(e.dtype)
    ensures Shown(e, Serving(Quantization)) == Given(e.quantization)
    ensures Shown(e, Serving(Port)) == Value(Itoa(HTTP_PORT))
    ensures Shown(e, Serving(MaxModelLen)) == Value(Itoa(e.maxModelLen))
    ensures Shown(e, Serving(GpuMemoryUtilization)) == Value(e.gpuMemoryUtilization)
  {
    hide Lora.Accepts, KVTransferConfig, Itoa;
  }

  lemma ServingRecovered(e: Config)
    ensures var c, n := ConfigOf(View(e)), Normal(e);
      && c.modelID == n.modelID
      && c.dtype == n.dtype
      && c.quantization == n.quantization
      && c.maxModelLen == n.maxModelLen
      && c.gpuMemoryUtilization == n.gpuMemoryUtilization
  {
    hide View, Said, Shown, Lora.Accepts, KVTransferConfig, KVSize, Itoa, Integer;
    ServingFacts(e);
    forall f ensures Said(View(e), f) == Shown(e, f) { ViewSays(e, f); }
    IntegerOfItoa(e.maxModelLen);
  }

  lemma ParsingFacts(e: Config)
    ensures Shown(e, Parsing(TensorParallelSize)) == Positive(e.tensorParallelSize, 2)
    ensures Shown(e, Parsing(EnableAutoToolChoice)) == When(e.enableAutoToolChoice)
    ensures Shown(e, Parsing(ToolCallParser)) == Given(e.toolCallParser)
    ensures Shown(e, Parsing(ReasoningParser)) == Given(e.reasoningParser)
    ensures Shown(e, Parsing(ChatTemplate)) == Given(e.chatTemplate)
  {
    hide Lora.Accepts, KVTransferConfig, Itoa;
  }

  lemma ParsingRecovered(e: Config)
    ensures var c, n := ConfigOf(View(e)), Normal(e);
      && c.tensorParallelSize == n.tensorParallelSize
      && c.enableAutoToolChoice == n.enableAutoToolChoice
      && c.toolCallParser == n.toolCallParser
      && c.reasoningParser == n.reasoningParser
      && c.chatTemplate == n.chatTemplate
  {
    hide View, Said, Shown, Lora.Accepts, KVTransferConfig, KVSize, Itoa, Integer;
    ParsingFacts(e);
    forall f ensures Said(View(e), f) == Shown(e, f) { ViewSays(e, f); }
    IntegerOfItoa(e.tensorParallelSize);
  }

  lemma CacheFacts(e: Config)
    ensures Shown(e, Cache(KvCacheDtype)) == Given(e.kvCacheDtype)
    ensures Shown(e, Cache(MambaCacheMode)) == Given(e.mambaCacheMode)
    ensures Shown(e, Cache(MambaBackend)) == Given(e.mambaBackend)
    ensures Shown(e, Cache(EnablePrefixCaching)) == When(e.enablePrefixCaching == Some(true))
    ensures Shown(e, Cache(NoEnablePrefixCaching)) == When(e.enablePrefixCaching == Some(false))
  {
    hide Lora.Accepts, KVTransferConfig, Itoa;
  }

  lemma CacheRecovered(e: Config)
    ensures var c, n := ConfigOf(View(e)), Normal(e);
      && c.kvCacheDtype == n.kvCacheDtype
      && c.mambaCacheMode == n.mambaCacheMode
      && c.mambaBackend == n.mambaBackend
      && c.enablePrefixCaching == n.enablePrefixCaching
  {
    hide View, Said, Shown, Lora.Accepts, KVTransferConfig, KVSize, Itoa, Integer;
    CacheFacts(e);
    forall f ensures Said(View(e), f) == Shown(e, f) { ViewSays(e, f); }
    Tristate(e.enablePrefixCaching);
  }

  lemma OffloadFacts(e: Config)
    ensures Shown(e, Offload(ServedModelName)) == Given(e.servedModelName)
    ensures Shown(e, Offload(CpuOffloadGb)) == Positive(e.cpuOffloadGiB, 1)
    ensures Shown(e, Offload(MaxNumBatchedTokens)) == Positive(e.maxNumBatchedTokens, 1)
    ensures Shown(e, Offload(EnableChunkedPrefill)) == When(e.enableChunkedPrefill)
    ensures Shown(e, Offload(KvTransferConfig)) ==
            if e.kvOffloadBackend == LMCACHE then Value(KVTransferConfig(e.kvOffloadSize)) else Absent
  {
    hide Lora.Accepts, KVTransferConfig, Itoa;
  }

  lemma OffloadRecovered(e: Config)
    ensures var c, n := ConfigOf(View(e)), Normal(e);
      && c.servedModelName == n.servedModelName
      && c.cpuOffloadGiB == n.cpuOffloadGiB
      && c.maxNumBatchedTokens == n.maxNumBatchedTokens
      && c.enableChunkedPrefill == n.enableChunkedPrefill
      && c.kvOffloadBackend == n.kvOffloadBackend
      && c.kvOffloadSize == n.kvOffloadSize
  {
    hide View, Said, Shown, Lora.Accepts, KVTransferConfig, KVSize, Itoa, Integer;
    OffloadFacts(e);
    forall f ensures Said(View(e), f) == Shown(e, f) { ViewSays(e, f); }
    IntegerOfItoa(e.cpuOffloadGiB);
    IntegerOfItoa(e.maxNumBatchedTokens);
    KVSizeIsRead(e.kvOffloadSize);
    KVSizeOfNothing();
  }

  lemma TuningFacts(e: Config)
    ensures Shown(e, Tuning(SpeculativeConfig)) == Given(e.speculativeConfig)
    ensures Shown(e, Tuning(LimitMmPerPrompt)) == Given(e.limitMmPerPrompt)
    ensures Shown(e, Tuning(MaxNumSeqs)) == Positive(e.maxNumSeqs, 1)
    ensures Shown(e, Tuning(KvCacheDtypeSkipLayers)) == Given(e.kvCacheDtypeSkipLayers)
    ensures Shown(e, Tuning(EnforceEager)) == When(e.enforceEager == Some(true))
    ensures Shown(e, Tuning(CompilationConfig)) == Given(e.compilationConfig)
  {
    hide Lora.Accepts, KVTransferConfig, Itoa;
  }

  lemma TuningRecovered(e: Config)
    ensures var c, n := ConfigOf(View(e)), Normal(e);
      && c.speculativeConfig == n.speculativeConfig
      && c.limitMmPerPrompt == n.limitMmPerPrompt
      && c.maxNumSeqs == n.maxNumSeqs
      && c.kvCacheDtypeSkipLayers == n.kvCacheDtypeSkipLayers
      && c.enforceEager == n.enforceEager
      && c.compilationConfig == n.compilationConfig
  {
    hide View, Said, Shown, Lora.Accepts, KVTransferConfig, KVSize, Itoa, Integer;
    TuningFacts(e);
    forall f ensures Said(View(e), f) == Shown(e, f) { ViewSays(e, f); }
    IntegerOfItoa(e.maxNumSeqs);
  }

  lemma AdapterFacts(e: Config)
    ensures Shown(e, Adapter(EnableLora)) == When(e.enableLora == Some(true))
    ensures Shown(e, Adapter(LoraModules)) ==
            if e.enableLora == Some(true) && Lora.Accepts(e.loraModules) then Given(e.loraModules) else Absent
    ensures Shown(e, Adapter(MaxLoraRank)) == if e.enableLora == Some(true) then Positive(e.maxLoraRank, 1) else Absent
  {
    hide Lora.Accepts, KVTransferConfig, Itoa;
  }

  lemma AdapterRecovered(e: Config)
    ensures var c, n := ConfigOf(View(e)), Normal(e);
      && c.enableLora == n.enableLora
      && c.loraModules == n.loraModules
      && c.maxLoraRank == n.maxLoraRank
  {
    hide View, Said, Shown, Lora.Accepts, KVTransferConfig, KVSize, Itoa, Integer;
    AdapterFacts(e);
    forall f ensures Said(View(e), f) == Shown(e, f) { ViewSays(e, f); }
    IntegerOfItoa(e.maxLoraRank);
  }

  lemma LongContextFacts(e: Config)
    ensures Shown(e, LongContext(Revision)) == Given(e.modelRevision)
    ensures Shown(e, LongContext(CodeRevision)) == Given(e.codeRevision)
    ensures Shown(e, LongContext(TokenizerRevision)) == Given(e.tokenizerRevision)
    ensures Shown(e, LongContext(TrustRemoteCode)) == When(e.trustRemoteCode)
    ensures Shown(e, LongContext(DisableCustomAllReduce)) == When(e.disableCustomAllReduce)
    ensures Shown(e, LongContext(EnableFlashinferAutotune)) == When(e.flashinferAutotune == Some(true))
    ensures Shown(e, LongContext(NoEnableFlashinferAutotune)) == When(e.flashinferAutotune == Some(false))
    ensures Shown(e, LongContext(EngramConfig)) == Given(e.engramConfig)
  {
    hide Lora.Accepts, KVTransferConfig, Itoa;
  }

  lemma LongContextRecovered(e: Config)
    ensures var c, n := ConfigOf(View(e)), Normal(e);
      && c.modelRevision == n.modelRevision
      && c.codeRevision == n.codeRevision
      && c.tokenizerRevision == n.tokenizerRevision
      && c.trustRemoteCode == n.trustRemoteCode
      && c.disableCustomAllReduce == n.disableCustomAllReduce
      && c.flashinferAutotune == n.flashinferAutotune
      && c.engramConfig == n.engramConfig
  {
    hide View, Said, Shown, Lora.Accepts, KVTransferConfig, KVSize, Itoa, Integer;
    LongContextFacts(e);
    forall f ensures Said(View(e), f) == Shown(e, f) { ViewSays(e, f); }
    Tristate(e.flashinferAutotune);
  }

  lemma Tristate(choice: Option<bool>)
    ensures Pair(When(choice == Some(true)), When(choice == Some(false))) == choice
  {
    if choice.Some? { assert choice.value == true || choice.value == false; }
  }

  lemma KVSizeOfNothing()
    ensures KVSize("") == 0
  {
  }

  lemma NormalShowsTheSame(e: Config, f: Flag)
    ensures Shown(Normal(e), f) == Shown(e, f)
  {
    hide Lora.Accepts, Itoa;
    NothingIsAccepted();
  }

  lemma NothingIsAccepted()
    ensures Lora.Accepts("")
  {
  }

  lemma {:induction false} SameBetween(d: Config, e: Config, i: nat, k: nat)
    requires k <= FLAGS
    requires forall f :: i <= Rank(f) < k ==> Shown(d, f) == Shown(e, f)
    ensures Between(d, i, k) == Between(e, i, k)
  {
    hide Shown, Rank, FlagAt;
    if i < k {
      RankOfFlagAt(k - 1);
      SameBetween(d, e, i, k - 1);
    }
  }

  // Two configurations give the same command line exactly when their normal forms agree.
  lemma SameArgsSameConfig(d: Config, e: Config)
    ensures Print(View(d)) == Print(View(e)) <==> Normal(d) == Normal(e)
  {
    hide Shown, Rank, Between, Said, Normal, ConfigOf;
    if Print(View(d)) == Print(View(e)) {
      ArgvRoundTrip(d);
      ArgvRoundTrip(e);
      ConfigIsRecovered(d);
      ConfigIsRecovered(e);
    }
    if Normal(d) == Normal(e) {
      forall f ensures Shown(d, f) == Shown(e, f) {
        NormalShowsTheSame(d, f);
        NormalShowsTheSame(e, f);
      }
      SameBetween(d, e, 0, FLAGS);
    }
  }

  // A change that one flag alone shows replaces that flag's words and moves nothing else.
  lemma OneFlagChangesItsOwnWords(d: Config, e: Config, f: Flag) returns (before: seq<string>, after: seq<string>)
    requires forall g :: g != f ==> Shown(d, g) == Shown(e, g)
    ensures Print(View(d)) == before + Words(Segment(f, Shown(d, f))) + after
    ensures Print(View(e)) == before + Words(Segment(f, Shown(e, f))) + after
  {
    hide Shown, Rank, FlagAt;
    var k := Rank(f);
    FlagAtRank(f);
    SameBetween(d, e, 0, k);
    SameBetween(d, e, k + 1, FLAGS);
    before, after := Print(Between(d, 0, k)), Print(Between(d, k + 1, FLAGS));
    Around(d, f);
    Around(e, f);
  }

  lemma Around(e: Config, f: Flag)
    ensures Print(View(e)) == Print(Between(e, 0, Rank(f))) + Words(Segment(f, Shown(e, f)))
                              + Print(Between(e, Rank(f) + 1, FLAGS))
  {
    hide Shown, Rank, Name, FlagAt;
    var k := Rank(f);
    FlagAtRank(f);
    BetweenConcat(e, 0, k + 1, FLAGS);
    PrintConcat(Between(e, 0, k + 1), Between(e, k + 1, FLAGS));
    PrintConcat(Between(e, 0, k), Shows(e, f));
    assert Words(Segment(f, Shown(e, f))) + [] == Words(Segment(f, Shown(e, f)));
  }

  // ---------------------------------------------------------------- one field

  datatype Field = ModelIDField | DtypeField | QuantizationField | MaxModelLenField | GpuMemoryUtilizationField |
    TensorParallelSizeField | EnableAutoToolChoiceField | ToolCallParserField | ReasoningParserField |
    ChatTemplateField | KvCacheDtypeField | MambaCacheModeField | MambaBackendField | EnablePrefixCachingField |
    ServedModelNameField | CpuOffloadGiBField | MaxNumBatchedTokensField | EnableChunkedPrefillField |
    KvOffloadBackendField | KvOffloadSizeField | SpeculativeConfigField | LimitMmPerPromptField | MaxNumSeqsField |
    KvCacheDtypeSkipLayersField | EnforceEagerField | CompilationConfigField | EnableLoraField | LoraModulesField |
    MaxLoraRankField | ModelRevisionField | CodeRevisionField | TokenizerRevisionField | TrustRemoteCodeField |
    DisableCustomAllReduceField | FlashinferAutotuneField | EngramConfigField

  predicate Agree(d: Config, e: Config, x: Field) {
    match x
    case ModelIDField => d.modelID == e.modelID
    case DtypeField => d.dtype == e.dtype
    case QuantizationField => d.quantization == e.quantization
    case MaxModelLenField => d.maxModelLen == e.maxModelLen
    case GpuMemoryUtilizationField => d.gpuMemoryUtilization == e.gpuMemoryUtilization
    case TensorParallelSizeField => d.tensorParallelSize == e.tensorParallelSize
    case EnableAutoToolChoiceField => d.enableAutoToolChoice == e.enableAutoToolChoice
    case ToolCallParserField => d.toolCallParser == e.toolCallParser
    case ReasoningParserField => d.reasoningParser == e.reasoningParser
    case ChatTemplateField => d.chatTemplate == e.chatTemplate
    case KvCacheDtypeField => d.kvCacheDtype == e.kvCacheDtype
    case MambaCacheModeField => d.mambaCacheMode == e.mambaCacheMode
    case MambaBackendField => d.mambaBackend == e.mambaBackend
    case EnablePrefixCachingField => d.enablePrefixCaching == e.enablePrefixCaching
    case ServedModelNameField => d.servedModelName == e.servedModelName
    case CpuOffloadGiBField => d.cpuOffloadGiB == e.cpuOffloadGiB
    case MaxNumBatchedTokensField => d.maxNumBatchedTokens == e.maxNumBatchedTokens
    case EnableChunkedPrefillField => d.enableChunkedPrefill == e.enableChunkedPrefill
    case KvOffloadBackendField => d.kvOffloadBackend == e.kvOffloadBackend
    case KvOffloadSizeField => d.kvOffloadSize == e.kvOffloadSize
    case SpeculativeConfigField => d.speculativeConfig == e.speculativeConfig
    case LimitMmPerPromptField => d.limitMmPerPrompt == e.limitMmPerPrompt
    case MaxNumSeqsField => d.maxNumSeqs == e.maxNumSeqs
    case KvCacheDtypeSkipLayersField => d.kvCacheDtypeSkipLayers == e.kvCacheDtypeSkipLayers
    case EnforceEagerField => d.enforceEager == e.enforceEager
    case CompilationConfigField => d.compilationConfig == e.compilationConfig
    case EnableLoraField => d.enableLora == e.enableLora
    case LoraModulesField => d.loraModules == e.loraModules
    case MaxLoraRankField => d.maxLoraRank == e.maxLoraRank
    case ModelRevisionField => d.modelRevision == e.modelRevision
    case CodeRevisionField => d.codeRevision == e.codeRevision
    case TokenizerRevisionField => d.tokenizerRevision == e.tokenizerRevision
    case TrustRemoteCodeField => d.trustRemoteCode == e.trustRemoteCode
    case DisableCustomAllReduceField => d.disableCustomAllReduce == e.disableCustomAllReduce
    case FlashinferAutotuneField => d.flashinferAutotune == e.flashinferAutotune
    case EngramConfigField => d.engramConfig == e.engramConfig
  }

  // The flags that a field can touch, by rank: from the first number up to the second.  Every field touches
  // one flag, but for the two pairs of a flag and its negation, and enableLora, which switches three.
  function Span(x: Field): (span: (nat, nat))
    ensures span.0 < span.1 <= FLAGS
  {
    match x
    case ModelIDField => (0, 1)
    case DtypeField => (1, 2)
    case QuantizationField => (2, 3)
    case MaxModelLenField => (4, 5)
    case GpuMemoryUtilizationField => (5, 6)
    case TensorParallelSizeField => (6, 7)
    case EnableAutoToolChoiceField => (7, 8)
    case ToolCallParserField => (8, 9)
    case ReasoningParserField => (9, 10)
    case ChatTemplateField => (10, 11)
    case KvCacheDtypeField => (11, 12)
    case MambaCacheModeField => (12, 13)
    case MambaBackendField => (13, 14)
    case EnablePrefixCachingField => (14, 16)
    case ServedModelNameField => (16, 17)
    case CpuOffloadGiBField => (17, 18)
    case MaxNumBatchedTokensField => (18, 19)
    case EnableChunkedPrefillField => (19, 20)
    case KvOffloadBackendField => (20, 21)
    case KvOffloadSizeField => (20, 21)
    case SpeculativeConfigField => (21, 22)
    case LimitMmPerPromptField => (22, 23)
    case MaxNumSeqsField => (23, 24)
    case KvCacheDtypeSkipLayersField => (24, 25)
    case EnforceEagerField => (25, 26)
    case CompilationConfigField => (26, 27)
    case EnableLoraField => (27, 30)
    case LoraModulesField => (28, 29)
    case MaxLoraRankField => (29, 30)
    case ModelRevisionField => (30, 31)
    case CodeRevisionField => (31, 32)
    case TokenizerRevisionField => (32, 33)
    case TrustRemoteCodeField => (33, 34)
    case DisableCustomAllReduceField => (34, 35)
    case FlashinferAutotuneField => (35, 37)
    case EngramConfigField => (37, 38)
  }

  lemma ServingUntouched(d: Config, e: Config, x: Field, f: ServingFlag)
    requires forall y :: y != x ==> Agree(d, e, y)
    requires !(Span(x).0 <= Rank(Serving(f)) < Span(x).1)
    ensures ServingShown(d, f) == ServingShown(e, f)
  {
    hide Lora.Accepts, KVTransferConfig, Itoa;
    match f
    case Model => assert Agree(d, e, ModelIDField);
    case Dtype => assert Agree(d, e, DtypeField);
    case Quantization => assert Agree(d, e, QuantizationField);
    case Port =>
    case MaxModelLen => assert Agree(d, e, MaxModelLenField);
    case GpuMemoryUtilization => assert Agree(d, e, GpuMemoryUtilizationField);
  }

  lemma ParsingUntouched(d: Config, e: Config, x: Field, f: ParsingFlag)
    requires forall y :: y != x ==> Agree(d, e, y)
    requires !(Span(x).0 <= Rank(Parsing(f)) < Span(x).1)
    ensures ParsingShown(d, f) == ParsingShown(e, f)
  {
    hide Agree, Span, Rank, ParsingShown;
    match f
    case TensorParallelSize | EnableAutoToolChoice => SizeAndChoiceUntouched(d, e, x, f);
    case _ => ParsersUntouched(d, e, x, f);
  }

  lemma SizeAndChoiceUntouched(d: Config, e: Config, x: Field, f: ParsingFlag)
    requires f.TensorParallelSize? || f.EnableAutoToolChoice?
    requires forall y :: y != x ==> Agree(d, e, y)
    requires !(Span(x).0 <= Rank(Parsing(f)) < Span(x).1)
    ensures ParsingShown(d, f) == ParsingShown(e, f)
  {
    hide Lora.Accepts, KVTransferConfig, Itoa;
    match f
    case TensorParallelSize => assert Agree(d, e, TensorParallelSizeField);
    case EnableAutoToolChoice => assert Agree(d, e, EnableAutoToolChoiceField);
  }

  lemma ParsersUntouched(d: Config, e: Config, x: Field, f: ParsingFlag)
    requires f.ToolCallParser? || f.ReasoningParser? || f.ChatTemplate?
    requires forall y :: y != x ==> Agree(d, e, y)
    requires !(Span(x).0 <= Rank(Parsing(f)) < Span(x).1)
    ensures ParsingShown(d, f) == ParsingShown(e, f)
  {
    hide Lora.Accepts, KVTransferConfig, Itoa;
    match f
    case ToolCallParser => assert Agree(d, e, ToolCallParserField);
    case ReasoningParser => assert Agree(d, e, ReasoningParserField);
    case ChatTemplate => assert Agree(d, e, ChatTemplateField);
  }

  lemma CacheUntouched(d: Config, e: Config, x: Field, f: CacheFlag)
    requires forall y :: y != x ==> Agree(d, e, y)
    requires !(Span(x).0 <= Rank(Cache(f)) < Span(x).1)
    ensures CacheShown(d, f) == CacheShown(e, f)
  {
    hide Agree, Span, Rank, CacheShown;
    match f
    case KvCacheDtype | MambaCacheMode | MambaBackend => CacheModesUntouched(d, e, x, f);
    case _ => PrefixCachingUntouched(d, e, x, f);
  }

  lemma CacheModesUntouched(d: Config, e: Config, x: Field, f: CacheFlag)
    requires f.KvCacheDtype? || f.MambaCacheMode? || f.MambaBackend?
    requires forall y :: y != x ==> Agree(d, e, y)
    requires !(Span(x).0 <= Rank(Cache(f)) < Span(x).1)
    ensures CacheShown(d, f) == CacheShown(e, f)
  {
    hide Lora.Accepts, KVTransferConfig, Itoa;
    match f
    case KvCacheDtype => assert Agree(d, e, KvCacheDtypeField);
    case MambaCacheMode => assert Agree(d, e, MambaCacheModeField);
    case MambaBackend => assert Agree(d, e, MambaBackendField);
  }

  lemma PrefixCachingUntouched(d: Config, e: Config, x: Field, f: CacheFlag)
    requires f.EnablePrefixCaching? || f.NoEnablePrefixCaching?
    requires forall y :: y != x ==> Agree(d, e, y)
    requires !(Span(x).0 <= Rank(Cache(f)) < Span(x).1)
    ensures CacheShown(d, f) == CacheShown(e, f)
  {
    hide Lora.Accepts, KVTransferConfig, Itoa;
    match f
    case EnablePrefixCaching => assert Agree(d, e, EnablePrefixCachingField);
    case NoEnablePrefixCaching => assert Agree(d, e, EnablePrefixCachingField);
  }

  lemma OffloadUntouched(d: Config, e: Config, x: Field, f: OffloadFlag)
    requires forall y :: y != x ==> Agree(d, e, y)
    requires !(Span(x).0 <= Rank(Offload(f)) < Span(x).1)
    ensures OffloadShown(d, f) == OffloadShown(e, f)
  {
    hide Agree, Span, Rank, OffloadShown;
    match f
    case ServedModelName | CpuOffloadGb | MaxNumBatchedTokens => OffloadSizesUntouched(d, e, x, f);
    case _ => OffloadModesUntouched(d, e, x, f);
  }

  lemma OffloadSizesUntouched(d: Config, e: Config, x: Field, f: OffloadFlag)
    requires f.ServedModelName? || f.CpuOffloadGb? || f.MaxNumBatchedTokens?
    requires forall y :: y != x ==> Agree(d, e, y)
    requires !(Span(x).0 <= Rank(Offload(f)) < Span(x).1)
    ensures OffloadShown(d, f) == OffloadShown(e, f)
  {
    hide Lora.Accepts, KVTransferConfig, Itoa;
    match f
    case ServedModelName => assert Agree(d, e, ServedModelNameField);
    case CpuOffloadGb => assert Agree(d, e, CpuOffloadGiBField);
    case MaxNumBatchedTokens => assert Agree(d, e, MaxNumBatchedTokensField);
  }

  lemma OffloadModesUntouched(d: Config, e: Config, x: Field, f: OffloadFlag)
    requires f.EnableChunkedPrefill? || f.KvTransferConfig?
    requires forall y :: y != x ==> Agree(d, e, y)
    requires !(Span(x).0 <= Rank(Offload(f)) < Span(x).1)
    ensures OffloadShown(d, f) == OffloadShown(e, f)
  {
    hide Lora.Accepts, KVTransferConfig, Itoa;
    match f
    case EnableChunkedPrefill => assert Agree(d, e, EnableChunkedPrefillField);
    case KvTransferConfig => assert Agree(d, e, KvOffloadBackendField) && Agree(d, e, KvOffloadSizeField);
  }

  lemma TuningUntouched(d: Config, e: Config, x: Field, f: TuningFlag)
    requires forall y :: y != x ==> Agree(d, e, y)
    requires !(Span(x).0 <= Rank(Tuning(f)) < Span(x).1)
    ensures TuningShown(d, f) == TuningShown(e, f)
  {
    hide Agree, Span, Rank, TuningShown;
    match f
    case SpeculativeConfig | LimitMmPerPrompt | MaxNumSeqs => TuningListsUntouched(d, e, x, f);
    case _ => TuningModesUntouched(d, e, x, f);
  }

  lemma TuningListsUntouched(d: Config, e: Config, x: Field, f: TuningFlag)
    requires f.SpeculativeConfig? || f.LimitMmPerPrompt? || f.MaxNumSeqs?
    requires forall y :: y != x ==> Agree(d, e, y)
    requires !(Span(x).0 <= Rank(Tuning(f)) < Span(x).1)
    ensures TuningShown(d, f) == TuningShown(e, f)
  {
    hide Lora.Accepts, KVTransferConfig, Itoa;
    match f
    case SpeculativeConfig => assert Agree(d, e, SpeculativeConfigField);
    case LimitMmPerPrompt => assert Agree(d, e, LimitMmPerPromptField);
    case MaxNumSeqs => assert Agree(d, e, MaxNumSeqsField);
  }

  lemma TuningModesUntouched(d: Config, e: Config, x: Field, f: TuningFlag)
    requires f.KvCacheDtypeSkipLayers? || f.EnforceEager? || f.CompilationConfig?
    requires forall y :: y != x ==> Agree(d, e, y)
    requires !(Span(x).0 <= Rank(Tuning(f)) < Span(x).1)
    ensures TuningShown(d, f) == TuningShown(e, f)
  {
    hide Lora.Accepts, KVTransferConfig, Itoa;
    match f
    case KvCacheDtypeSkipLayers => assert Agree(d, e, KvCacheDtypeSkipLayersField);
    case EnforceEager => assert Agree(d, e, EnforceEagerField);
    case CompilationConfig => assert Agree(d, e, CompilationConfigField);
  }

  lemma AdapterUntouched(d: Config, e: Config, x: Field, f: AdapterFlag)
    requires forall y :: y != x ==> Agree(d, e, y)
    requires !(Span(x).0 <= Rank(Adapter(f)) < Span(x).1)
    ensures AdapterShown(d, f) == AdapterShown(e, f)
  {
    hide Lora.Accepts, KVTransferConfig, Itoa;
    match f
    case EnableLora => assert Agree(d, e, EnableLoraField);
    case LoraModules => assert Agree(d, e, EnableLoraField) && Agree(d, e, LoraModulesField);
    case MaxLoraRank => assert Agree(d, e, EnableLoraField) && Agree(d, e, MaxLoraRankField);
  }

  lemma LongContextUntouched(d: Config, e: Config, x: Field, f: LongContextFlag)
    requires forall y :: y != x ==> Agree(d, e, y)
    requires !(Span(x).0 <= Rank(LongContext(f)) < Span(x).1)
    ensures LongContextShown(d, f) == LongContextShown(e, f)
  {
    hide Agree, Span, Rank, LongContextShown;
    match f
    case Revision | CodeRevision | TokenizerRevision | TrustRemoteCode => RevisionsUntouched(d, e, x, f);
    case _ => SwitchesUntouched(d, e, x, f);
  }

  lemma RevisionsUntouched(d: Config, e: Config, x: Field, f: LongContextFlag)
    requires f.Revision? || f.CodeRevision? || f.TokenizerRevision? || f.TrustRemoteCode?
    requires forall y :: y != x ==> Agree(d, e, y)
    requires !(Span(x).0 <= Rank(LongContext(f)) < Span(x).1)
    ensures LongContextShown(d, f) == LongContextShown(e, f)
  {
    match f
    case Revision => assert Agree(d, e, ModelRevisionField);
    case CodeRevision => assert Agree(d, e, CodeRevisionField);
    case TokenizerRevision => assert Agree(d, e, TokenizerRevisionField);
    case TrustRemoteCode => assert Agree(d, e, TrustRemoteCodeField);
  }

  lemma SwitchesUntouched(d: Config, e: Config, x: Field, f: LongContextFlag)
    requires f.DisableCustomAllReduce? || f.EnableFlashinferAutotune? || f.NoEnableFlashinferAutotune? || f.EngramConfig?
    requires forall y :: y != x ==> Agree(d, e, y)
    requires !(Span(x).0 <= Rank(LongContext(f)) < Span(x).1)
    ensures LongContextShown(d, f) == LongContextShown(e, f)
  {
    match f
    case DisableCustomAllReduce => assert Agree(d, e, DisableCustomAllReduceField);
    case EnableFlashinferAutotune => assert Agree(d, e, FlashinferAutotuneField);
    case NoEnableFlashinferAutotune => assert Agree(d, e, FlashinferAutotuneField);
    case EngramConfig => assert Agree(d, e, EngramConfigField);
  }

  // A change to one field changes the words of the flags it can touch and moves nothing else.
  lemma OneFieldChangesItsOwnWords(d: Config, e: Config, x: Field) returns (before: seq<string>, after: seq<string>)
    requires forall y :: y != x ==> Agree(d, e, y)
    ensures Print(View(d)) == before + Print(Between(d, Span(x).0, Span(x).1)) + after
    ensures Print(View(e)) == before + Print(Between(e, Span(x).0, Span(x).1)) + after
  {
    hide Shown, Rank, FlagAt, Agree, Span, Print;
    var (i, k) := Span(x);
    forall f | !(i <= Rank(f) < k) ensures Shown(d, f) == Shown(e, f) { Untouched(d, e, x, f); }
    SameBetween(d, e, 0, i);
    SameBetween(d, e, k, FLAGS);
    before, after := Print(Between(d, 0, i)), Print(Between(d, k, FLAGS));
    InThree(d, i, k);
    InThree(e, i, k);
  }

  lemma Untouched(d: Config, e: Config, x: Field, f: Flag)
    requires forall y :: y != x ==> Agree(d, e, y)
    requires !(Span(x).0 <= Rank(f) < Span(x).1)
    ensures Shown(d, f) == Shown(e, f)
  {
    hide Agree, Span, Rank, ServingShown, ParsingShown, CacheShown, OffloadShown, TuningShown, AdapterShown, LongContextShown;
    match f
    case Serving(y) => ServingUntouched(d, e, x, y);
    case Parsing(y) => ParsingUntouched(d, e, x, y);
    case Cache(y) => CacheUntouched(d, e, x, y);
    case Offload(y) => OffloadUntouched(d, e, x, y);
    case Tuning(y) => TuningUntouched(d, e, x, y);
    case Adapter(y) => AdapterUntouched(d, e, x, y);
    case LongContext(y) => LongContextUntouched(d, e, x, y);
  }

  lemma InThree(e: Config, i: nat, k: nat)
    requires i <= k <= FLAGS
    ensures Print(View(e)) == Print(Between(e, 0, i)) + Print(Between(e, i, k)) + Print(Between(e, k, FLAGS))
  {
    BetweenConcat(e, 0, i, k);
    BetweenConcat(e, 0, k, FLAGS);
    PrintConcat(Between(e, 0, i), Between(e, i, k));
    PrintConcat(Between(e, 0, k), Between(e, k, FLAGS));
  }
}
