// The vLLM flags that buildArgs (operator/internal/vllm/deployment.go, flags_178.go) may emit: their
// order, their words, and which of them take a value.
module Flags {
  import opened Wrappers

  // The flags, in the order buildArgs emits them.
  datatype ServingFlag = Model | Dtype | Quantization | Port | MaxModelLen | GpuMemoryUtilization
  datatype ParsingFlag = TensorParallelSize | EnableAutoToolChoice | ToolCallParser | ReasoningParser | ChatTemplate
  datatype CacheFlag = KvCacheDtype | MambaCacheMode | MambaBackend | EnablePrefixCaching | NoEnablePrefixCaching
  datatype OffloadFlag = ServedModelName | CpuOffloadGb | MaxNumBatchedTokens | EnableChunkedPrefill |
    KvTransferConfig
  datatype TuningFlag = SpeculativeConfig | LimitMmPerPrompt | MaxNumSeqs | KvCacheDtypeSkipLayers | EnforceEager |
    CompilationConfig
  datatype AdapterFlag = EnableLora | LoraModules | MaxLoraRank
  datatype LongContextFlag = Revision | CodeRevision | TokenizerRevision | TrustRemoteCode |
    DisableCustomAllReduce | EnableFlashinferAutotune | NoEnableFlashinferAutotune | EngramConfig
  datatype Flag = Serving(f1: ServingFlag) | Parsing(f2: ParsingFlag) | Cache(f3: CacheFlag) |
    Offload(f4: OffloadFlag) | Tuning(f5: TuningFlag) | Adapter(f6: AdapterFlag) | LongContext(f7: LongContextFlag)

  const FLAGS: nat := 38

  // The place of a flag in that order.
  function Rank(f: Flag): (k: nat)
    ensures k < FLAGS
  {
    match f
    case Serving(x) => ServingRank(x)
    case Parsing(x) => 6 + ParsingRank(x)
    case Cache(x) => 11 + CacheRank(x)
    case Offload(x) => 16 + OffloadRank(x)
    case Tuning(x) => 21 + TuningRank(x)
    case Adapter(x) => 27 + AdapterRank(x)
    case LongContext(x) => 30 + LongContextRank(x)
  }

  function ServingRank(f: ServingFlag): (k: nat)
    ensures k < 6
  {
    match f
    case Model => 0
    case Dtype => 1
    case Quantization => 2
    case Port => 3
    case MaxModelLen => 4
    case GpuMemoryUtilization => 5
  }

  function ParsingRank(f: ParsingFlag): (k: nat)
    ensures k < 5
  {
    match f
    case TensorParallelSize => 0
    case EnableAutoToolChoice => 1
    case ToolCallParser => 2
    case ReasoningParser => 3
    case ChatTemplate => 4
  }

  function CacheRank(f: CacheFlag): (k: nat)
    ensures k < 5
  {
    match f
    case KvCacheDtype => 0
    case MambaCacheMode => 1
    case MambaBackend => 2
    case EnablePrefixCaching => 3
    case NoEnablePrefixCaching => 4
  }

  function OffloadRank(f: OffloadFlag): (k: nat)
    ensures k < 5
  {
    match f
    case ServedModelName => 0
    case CpuOffloadGb => 1
    case MaxNumBatchedTokens => 2
    case EnableChunkedPrefill => 3
    case KvTransferConfig => 4
  }

  function TuningRank(f: TuningFlag): (k: nat)
    ensures k < 6
  {
    match f
    case SpeculativeConfig => 0
    case LimitMmPerPrompt => 1
    case MaxNumSeqs => 2
    case KvCacheDtypeSkipLayers => 3
    case EnforceEager => 4
    case CompilationConfig => 5
  }

  function AdapterRank(f: AdapterFlag): (k: nat)
    ensures k < 3
  {
    match f
    case EnableLora => 0
    case LoraModules => 1
    case MaxLoraRank => 2
  }

  function LongContextRank(f: LongContextFlag): (k: nat)
    ensures k < 8
  {
    match f
    case Revision => 0
    case CodeRevision => 1
    case TokenizerRevision => 2
    case TrustRemoteCode => 3
    case DisableCustomAllReduce => 4
    case EnableFlashinferAutotune => 5
    case NoEnableFlashinferAutotune => 6
    case EngramConfig => 7
  }

  function FlagAt(k: nat): Flag
    requires k < FLAGS
  {
    if k < 6 then Serving(ServingAt(k))
    else if k < 11 then Parsing(ParsingAt(k - 6))
    else if k < 16 then Cache(CacheAt(k - 11))
    else if k < 21 then Offload(OffloadAt(k - 16))
    else if k < 27 then Tuning(TuningAt(k - 21))
    else if k < 30 then Adapter(AdapterAt(k - 27))
    else LongContext(LongContextAt(k - 30))
  }

  function ServingAt(k: nat): ServingFlag
    requires k < 6
  {
    match k
    case 0 => Model
    case 1 => Dtype
    case 2 => Quantization
    case 3 => Port
    case 4 => MaxModelLen
    case _ => GpuMemoryUtilization
  }

  function ParsingAt(k: nat): ParsingFlag
    requires k < 5
  {
    match k
    case 0 => TensorParallelSize
    case 1 => EnableAutoToolChoice
    case 2 => ToolCallParser
    case 3 => ReasoningParser
    case _ => ChatTemplate
  }

  function CacheAt(k: nat): CacheFlag
    requires k < 5
  {
    match k
    case 0 => KvCacheDtype
    case 1 => MambaCacheMode
    case 2 => MambaBackend
    case 3 => EnablePrefixCaching
    case _ => NoEnablePrefixCaching
  }

  function OffloadAt(k: nat): OffloadFlag
    requires k < 5
  {
    match k
    case 0 => ServedModelName
    case 1 => CpuOffloadGb
    case 2 => MaxNumBatchedTokens
    case 3 => EnableChunkedPrefill
    case _ => KvTransferConfig
  }

  function TuningAt(k: nat): TuningFlag
    requires k < 6
  {
    match k
    case 0 => SpeculativeConfig
    case 1 => LimitMmPerPrompt
    case 2 => MaxNumSeqs
    case 3 => KvCacheDtypeSkipLayers
    case 4 => EnforceEager
    case _ => CompilationConfig
  }

  function AdapterAt(k: nat): AdapterFlag
    requires k < 3
  {
    match k
    case 0 => EnableLora
    case 1 => LoraModules
    case _ => MaxLoraRank
  }

  function LongContextAt(k: nat): LongContextFlag
    requires k < 8
  {
    match k
    case 0 => Revision
    case 1 => CodeRevision
    case 2 => TokenizerRevision
    case 3 => TrustRemoteCode
    case 4 => DisableCustomAllReduce
    case 5 => EnableFlashinferAutotune
    case 6 => NoEnableFlashinferAutotune
    case _ => EngramConfig
  }

  lemma FlagAtRank(f: Flag)
    ensures FlagAt(Rank(f)) == f
  {
  }

  lemma RankOfFlagAt(k: nat)
    requires k < FLAGS
    ensures Rank(FlagAt(k)) == k
  {
  }

  function Name(f: Flag): string {
    match f
    case Serving(x) => ServingName(x)
    case Parsing(x) => ParsingName(x)
    case Cache(x) => CacheName(x)
    case Offload(x) => OffloadName(x)
    case Tuning(x) => TuningName(x)
    case Adapter(x) => AdapterName(x)
    case LongContext(x) => LongContextName(x)
  }

  function ServingName(f: ServingFlag): string {
    match f
    case Model => "--model"
    case Dtype => "--dtype"
    case Quantization => "--quantization"
    case Port => "--port"
    case MaxModelLen => "--max-model-len"
    case GpuMemoryUtilization => "--gpu-memory-utilization"
  }

  function ParsingName(f: ParsingFlag): string {
    match f
    case TensorParallelSize => "--tensor-parallel-size"
    case EnableAutoToolChoice => "--enable-auto-tool-choice"
    case ToolCallParser => "--tool-call-parser"
    case ReasoningParser => "--reasoning-parser"
    case ChatTemplate => "--chat-template"
  }

  function CacheName(f: CacheFlag): string {
    match f
    case KvCacheDtype => "--kv-cache-dtype"
    case MambaCacheMode => "--mamba-cache-mode"
    case MambaBackend => "--mamba-backend"
    case EnablePrefixCaching => "--enable-prefix-caching"
    case NoEnablePrefixCaching => "--no-enable-prefix-caching"
  }

  function OffloadName(f: OffloadFlag): string {
    match f
    case ServedModelName => "--served-model-name"
    case CpuOffloadGb => "--cpu-offload-gb"
    case MaxNumBatchedTokens => "--max-num-batched-tokens"
    case EnableChunkedPrefill => "--enable-chunked-prefill"
    case KvTransferConfig => "--kv-transfer-config"
  }

  function TuningName(f: TuningFlag): string {
    match f
    case SpeculativeConfig => "--speculative-config"
    case LimitMmPerPrompt => "--limit-mm-per-prompt"
    case MaxNumSeqs => "--max-num-seqs"
    case KvCacheDtypeSkipLayers => "--kv-cache-dtype-skip-layers"
    case EnforceEager => "--enforce-eager"
    case CompilationConfig => "--compilation-config"
  }

  function AdapterName(f: AdapterFlag): string {
    match f
    case EnableLora => "--enable-lora"
    case LoraModules => "--lora-modules"
    case MaxLoraRank => "--max-lora-rank"
  }

  function LongContextName(f: LongContextFlag): string {
    match f
    case Revision => "--revision"
    case CodeRevision => "--code-revision"
    case TokenizerRevision => "--tokenizer-revision"
    case TrustRemoteCode => "--trust-remote-code"
    case DisableCustomAllReduce => "--disable-custom-all-reduce"
    case EnableFlashinferAutotune => "--enable-flashinfer-autotune"
    case NoEnableFlashinferAutotune => "--no-enable-flashinfer-autotune"
    case EngramConfig => "--engram-config"
  }

  // Whether a flag is followed by one value; the others stand alone (argparse's store_true).
  predicate TakesValue(f: Flag) {
    match f
    case Serving(x) => true
    case Parsing(x) => !x.EnableAutoToolChoice?
    case Cache(x) => !x.EnablePrefixCaching? && !x.NoEnablePrefixCaching?
    case Offload(x) => !x.EnableChunkedPrefill?
    case Tuning(x) => !x.EnforceEager?
    case Adapter(x) => !x.EnableLora?
    case LongContext(x) =>
      && !x.TrustRemoteCode? && !x.DisableCustomAllReduce? && !x.EnableFlashinferAutotune?
      && !x.NoEnableFlashinferAutotune?
  }

  // The only flag a word of this length and spelling could be.
  function Candidate(text: string): Flag {
    match |text|
    case 6 => Serving(Port)
    case 7 => if text[2] == 'm' then Serving(Model) else Serving(Dtype)
    case 10 => LongContext(Revision)
    case 13 => Adapter(EnableLora)
    case 14 =>
      if text[2] == 'q' then Serving(Quantization)
      else if text[2] == 'm' then Tuning(MaxNumSeqs)
      else Adapter(LoraModules)
    case 15 =>
      if text[10] == 'l' then Serving(MaxModelLen)
      else if text[10] == 'p' then Parsing(ChatTemplate)
      else if text[10] == 'c' then Cache(MambaBackend)
      else if text[10] == 'e' then Tuning(EnforceEager)
      else if text[10] == '-' then Adapter(MaxLoraRank)
      else if text[10] == 'i' then LongContext(CodeRevision)
      else LongContext(EngramConfig)
    case 16 => if text[2] == 'k' then Cache(KvCacheDtype) else Offload(CpuOffloadGb)
    case 18 =>
      if text[2] == 't' then Parsing(ToolCallParser)
      else if text[2] == 'r' then Parsing(ReasoningParser)
      else Cache(MambaCacheMode)
    case 19 => if text[2] == 's' then Offload(ServedModelName) else LongContext(TrustRemoteCode)
    case 20 =>
      if text[2] == 'k' then Offload(KvTransferConfig)
      else if text[2] == 's' then Tuning(SpeculativeConfig)
      else if text[2] == 'c' then Tuning(CompilationConfig)
      else LongContext(TokenizerRevision)
    case 21 => Tuning(LimitMmPerPrompt)
    case 22 => Parsing(TensorParallelSize)
    case 23 => Cache(EnablePrefixCaching)
    case 24 =>
      if text[2] == 'g' then Serving(GpuMemoryUtilization)
      else if text[2] == 'm' then Offload(MaxNumBatchedTokens)
      else Offload(EnableChunkedPrefill)
    case 25 => Parsing(EnableAutoToolChoice)
    case 26 => Cache(NoEnablePrefixCaching)
    case 27 => LongContext(DisableCustomAllReduce)
    case 28 => if text[2] == 'k' then Tuning(KvCacheDtypeSkipLayers) else LongContext(EnableFlashinferAutotune)
    case 31 => LongContext(NoEnableFlashinferAutotune)
    case _ => Serving(Model)
  }

  function FlagOf(text: string): Option<Flag> {
    if Name(Candidate(text)) == text then Some(Candidate(text)) else None
  }

  // The word of a flag is read as that flag and no other word is.
  lemma FlagOfIsExact(f: Flag, text: string)
    ensures FlagOf(text) == Some(f) <==> text == Name(f)
  {
    hide Candidate, ServingName, ParsingName, CacheName, OffloadName, TuningName, AdapterName, LongContextName;
    match f
    case Serving(x) => ServingIsRead(x);
    case Parsing(x) => ParsingIsRead(x);
    case Cache(x) => CacheIsRead(x);
    case Offload(x) => OffloadIsRead(x);
    case Tuning(x) => TuningIsRead(x);
    case Adapter(x) => AdapterIsRead(x);
    case LongContext(x) => LongContextIsRead(x);
  }

  lemma ServingIsRead(f: ServingFlag)
    ensures Candidate(ServingName(f)) == Serving(f)
  {
  }

  lemma ParsingIsRead(f: ParsingFlag)
    ensures Candidate(ParsingName(f)) == Parsing(f)
  {
  }

  lemma CacheIsRead(f: CacheFlag)
    ensures Candidate(CacheName(f)) == Cache(f)
  {
  }

  lemma OffloadIsRead(f: OffloadFlag)
    ensures Candidate(OffloadName(f)) == Offload(f)
  {
  }

  lemma TuningIsRead(f: TuningFlag)
    ensures Candidate(TuningName(f)) == Tuning(f)
  {
  }

  lemma AdapterIsRead(f: AdapterFlag)
    ensures Candidate(AdapterName(f)) == Adapter(f)
  {
  }

  lemma LongContextIsRead(f: LongContextFlag)
    ensures Candidate(LongContextName(f)) == LongContext(f)
  {
  }
}
