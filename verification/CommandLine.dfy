/**
 * The command line of buildArgs (operator/internal/vllm/deployment.go, flags_178.go) written out: every
 * word, in order, and when it is there.  What `Argv` says through flags and settings comes to this.
 */
module CommandLine {
  import opened Wrappers
  import opened Text
  import opened Flags
  import opened Argv
  import Lora

  // ---------------------------------------------------------------- the words

  function Optional(flag: string, text: string): seq<string> {
    if text != "" then [flag, text] else []
  }

  function Above(flag: string, n: int, bound: int): seq<string> {
    if n > bound then [flag, Itoa(n)] else []
  }

  function Switch(flag: string, on: bool): seq<string> {
    if on then [flag] else []
  }

  // The two words of a switch that can be turned off.
  function TwoWay(flag: string, no: string, choice: Option<bool>): seq<string> {
    match choice
    case None => []
    case Some(on) => [if on then flag else no]
  }

  ghost function Expected(e: Config): seq<string> {
    Serving(e) + Parsing(e) + Caching(e) + Offloading(e) + Tuning(e) + Adapters(e) + LongContext(e)
  }

  function Serving(e: Config): seq<string> {
    ["--model", e.modelID]
    + Optional("--dtype", e.dtype)
    + Optional("--quantization", e.quantization)
    + ["--port", "8000"]
    + ["--max-model-len", Itoa(e.maxModelLen)]
    + ["--gpu-memory-utilization", e.gpuMemoryUtilization]
  }

  function Parsing(e: Config): seq<string> {
    Above("--tensor-parallel-size", e.tensorParallelSize, 1)
    + Switch("--enable-auto-tool-choice", e.enableAutoToolChoice)
    + Optional("--tool-call-parser", e.toolCallParser)
    + Optional("--reasoning-parser", e.reasoningParser)
    + Optional("--chat-template", e.chatTemplate)
  }

  function Caching(e: Config): seq<string> {
    Optional("--kv-cache-dtype", e.kvCacheDtype)
    + Optional("--mamba-cache-mode", e.mambaCacheMode)
    + Optional("--mamba-backend", e.mambaBackend)
    + TwoWay("--enable-prefix-caching", "--no-enable-prefix-caching", e.enablePrefixCaching)
  }

  function Offloading(e: Config): seq<string> {
    Optional("--served-model-name", e.servedModelName)
    + Above("--cpu-offload-gb", e.cpuOffloadGiB, 0)
    + Above("--max-num-batched-tokens", e.maxNumBatchedTokens, 0)
    + Switch("--enable-chunked-prefill", e.enableChunkedPrefill)
    + (if e.kvOffloadBackend == "lmcache" then ["--kv-transfer-config", Transfer(e.kvOffloadSize)] else [])
  }

  // The connector's JSON, with the buffer size in bytes.
  function Transfer(sizeGiB: int): string {
    "{\"kv_connector\":\"LMCacheConnectorV1\","
    + "\"kv_role\":\"kv_both\""
    + (if sizeGiB > 0 then ",\"kv_buffer_size\":" + Itoa(sizeGiB * 1073741824) else "")
    + "}"
  }

  function Tuning(e: Config): seq<string> {
    Optional("--speculative-config", e.speculativeConfig)
    + Optional("--limit-mm-per-prompt", e.limitMmPerPrompt)
    + Above("--max-num-seqs", e.maxNumSeqs, 0)
    + Optional("--kv-cache-dtype-skip-layers", e.kvCacheDtypeSkipLayers)
    + Switch("--enforce-eager", e.enforceEager == Some(true))
    + Optional("--compilation-config", e.compilationConfig)
  }

  // Nothing of adapters unless serving them is enabled, and no list of them that does not validate.
  ghost function Adapters(e: Config): seq<string> {
    if e.enableLora != Some(true) then []
    else
      ["--enable-lora"]
      + (if Lora.Accepts(e.loraModules) then Optional("--lora-modules", e.loraModules) else [])
      + Above("--max-lora-rank", e.maxLoraRank, 0)
  }

  function LongContext(e: Config): seq<string> {
    Optional("--revision", e.modelRevision)
    + Optional("--code-revision", e.codeRevision)
    + Optional("--tokenizer-revision", e.tokenizerRevision)
    + Switch("--trust-remote-code", e.trustRemoteCode)
    + Switch("--disable-custom-all-reduce", e.disableCustomAllReduce)
    + TwoWay("--enable-flashinfer-autotune", "--no-enable-flashinfer-autotune", e.flashinferAutotune)
    + Optional("--engram-config", e.engramConfig)
  }

  // ---------------------------------------------------------------- flag by flag

  // What one flag adds.
  ghost function Part(e: Config, f: Flag): seq<string> {
    match Shown(e, f)
    case Absent => []
    case Present => [Name(f)]
    case Value(text) => [Name(f), text]
  }

  lemma PrintOne(e: Config, i: nat, f: Flag, was: seq<string>)
    requires i <= Rank(f) && Print(Between(e, i, Rank(f))) == was
    ensures Print(Between(e, i, Rank(f) + 1)) == was + Part(e, f)
  {
    hide Shown, Name, Rank, FlagAt;
    FlagAtRank(f);
    PrintConcat(Between(e, i, Rank(f)), Shows(e, f));
    assert was + [] == was;
    assert Words(Segment(f, Shown(e, f))) + [] == Words(Segment(f, Shown(e, f)));
  }

  lemma NothingPrinted(e: Config, i: nat)
    requires i <= FLAGS
    ensures Print(Between(e, i, i)) == []
  {
  }

  lemma ServingParts(e: Config)
    ensures Part(e, Flag.Serving(Model)) == ["--model", e.modelID]
    ensures Part(e, Flag.Serving(Dtype)) == Optional("--dtype", e.dtype)
    ensures Part(e, Flag.Serving(Quantization)) == Optional("--quantization", e.quantization)
    ensures Part(e, Flag.Serving(Port)) == ["--port", "8000"]
    ensures Part(e, Flag.Serving(MaxModelLen)) == ["--max-model-len", Itoa(e.maxModelLen)]
    ensures Part(e, Flag.Serving(GpuMemoryUtilization)) == ["--gpu-memory-utilization", e.gpuMemoryUtilization]
  {
    PortIsWritten();
    hide Itoa;
  }

  lemma PortIsWritten()
    ensures Itoa(HTTP_PORT) == "8000"
  {
    DecimalIsPositional(800, 0);
    DecimalIsPositional(80, 0);
    DecimalIsPositional(8, 0);
  }

  lemma ServingIsPrinted(e: Config)
    ensures Print(Between(e, 0, 6)) == Serving(e)
  {
    hide Between, Print, Part, Optional, Itoa;
    ServingParts(e);
    NothingPrinted(e, 0);
    var p0 := ["--model", e.modelID];
    assert [] + p0 == p0;
    PrintOne(e, 0, Flag.Serving(Model), []);
    var p1 := p0 + Optional("--dtype", e.dtype);
    PrintOne(e, 0, Flag.Serving(Dtype), p0);
    var p2 := p1 + Optional("--quantization", e.quantization);
    PrintOne(e, 0, Flag.Serving(Quantization), p1);
    var p3 := p2 + ["--port", "8000"];
    PrintOne(e, 0, Flag.Serving(Port), p2);
    var p4 := p3 + ["--max-model-len", Itoa(e.maxModelLen)];
    PrintOne(e, 0, Flag.Serving(MaxModelLen), p3);
    PrintOne(e, 0, Flag.Serving(GpuMemoryUtilization), p4);
  }

  lemma ParsingParts(e: Config)
    ensures Part(e, Flag.Parsing(TensorParallelSize)) == Above("--tensor-parallel-size", e.tensorParallelSize, 1)
    ensures Part(e, Flag.Parsing(EnableAutoToolChoice)) == Switch("--enable-auto-tool-choice", e.enableAutoToolChoice)
    ensures Part(e, Flag.Parsing(ToolCallParser)) == Optional("--tool-call-parser", e.toolCallParser)
    ensures Part(e, Flag.Parsing(ReasoningParser)) == Optional("--reasoning-parser", e.reasoningParser)
    ensures Part(e, Flag.Parsing(ChatTemplate)) == Optional("--chat-template", e.chatTemplate)
  {
    hide Itoa, KVTransferConfig, Transfer;
  }

  lemma ParsingIsPrinted(e: Config)
    ensures Print(Between(e, 6, 11)) == Parsing(e)
  {
    hide Between, Print, Part, Optional, Above, Switch, TwoWay, Transfer, Itoa;
    ParsingParts(e);
    NothingPrinted(e, 6);
    PrintOne(e, 6, Flag.Parsing(TensorParallelSize), []);
    var p0 := Above("--tensor-parallel-size", e.tensorParallelSize, 1);
    assert [] + p0 == p0;
    PrintOne(e, 6, Flag.Parsing(EnableAutoToolChoice), p0);
    var p1 := p0 + Switch("--enable-auto-tool-choice", e.enableAutoToolChoice);
    PrintOne(e, 6, Flag.Parsing(ToolCallParser), p1);
    var p2 := p1 + Optional("--tool-call-parser", e.toolCallParser);
    PrintOne(e, 6, Flag.Parsing(ReasoningParser), p2);
    var p3 := p2 + Optional("--reasoning-parser", e.reasoningParser);
    PrintOne(e, 6, Flag.Parsing(ChatTemplate), p3);
  }

  lemma CachingParts(e: Config)
    ensures Part(e, Flag.Cache(KvCacheDtype)) == Optional("--kv-cache-dtype", e.kvCacheDtype)
    ensures Part(e, Flag.Cache(MambaCacheMode)) == Optional("--mamba-cache-mode", e.mambaCacheMode)
    ensures Part(e, Flag.Cache(MambaBackend)) == Optional("--mamba-backend", e.mambaBackend)
    ensures Part(e, Flag.Cache(EnablePrefixCaching)) + Part(e, Flag.Cache(NoEnablePrefixCaching)) ==
      TwoWay("--enable-prefix-caching", "--no-enable-prefix-caching", e.enablePrefixCaching)
  {
    hide Itoa, KVTransferConfig, Transfer;
  }

  lemma CachingIsPrinted(e: Config)
    ensures Print(Between(e, 11, 16)) == Caching(e)
  {
    hide Between, Print, Part, Optional, Above, Switch, TwoWay, Transfer, Itoa;
    CachingParts(e);
    NothingPrinted(e, 11);
    PrintOne(e, 11, Flag.Cache(KvCacheDtype), []);
    var p0 := Optional("--kv-cache-dtype", e.kvCacheDtype);
    assert [] + p0 == p0;
    PrintOne(e, 11, Flag.Cache(MambaCacheMode), p0);
    var p1 := p0 + Optional("--mamba-cache-mode", e.mambaCacheMode);
    PrintOne(e, 11, Flag.Cache(MambaBackend), p1);
    var p2 := p1 + Optional("--mamba-backend", e.mambaBackend);
    PrintOne(e, 11, Flag.Cache(EnablePrefixCaching), p2);
    PrintOne(e, 11, Flag.Cache(NoEnablePrefixCaching), p2 + Part(e, Flag.Cache(EnablePrefixCaching)));
    Associates(p2, Part(e, Flag.Cache(EnablePrefixCaching)), Part(e, Flag.Cache(NoEnablePrefixCaching)));
  }

  lemma OffloadingParts(e: Config)
    ensures Part(e, Flag.Offload(ServedModelName)) == Optional("--served-model-name", e.servedModelName)
    ensures Part(e, Flag.Offload(CpuOffloadGb)) == Above("--cpu-offload-gb", e.cpuOffloadGiB, 0)
    ensures Part(e, Flag.Offload(MaxNumBatchedTokens)) == Above("--max-num-batched-tokens", e.maxNumBatchedTokens, 0)
    ensures Part(e, Flag.Offload(EnableChunkedPrefill)) == Switch("--enable-chunked-prefill", e.enableChunkedPrefill)
    ensures Part(e, Flag.Offload(KvTransferConfig)) ==
      (if e.kvOffloadBackend == "lmcache" then ["--kv-transfer-config", Transfer(e.kvOffloadSize)] else [])
  {
    TransferIsWritten(e.kvOffloadSize);
    hide Itoa, KVTransferConfig, Transfer;
  }

  lemma OffloadingIsPrinted(e: Config)
    ensures Print(Between(e, 16, 21)) == Offloading(e)
  {
    hide Between, Print, Part, Optional, Above, Switch, TwoWay, Transfer, Itoa;
    OffloadingParts(e);
    NothingPrinted(e, 16);
    PrintOne(e, 16, Flag.Offload(ServedModelName), []);
    var p0 := Optional("--served-model-name", e.servedModelName);
    assert [] + p0 == p0;
    PrintOne(e, 16, Flag.Offload(CpuOffloadGb), p0);
    var p1 := p0 + Above("--cpu-offload-gb", e.cpuOffloadGiB, 0);
    PrintOne(e, 16, Flag.Offload(MaxNumBatchedTokens), p1);
    var p2 := p1 + Above("--max-num-batched-tokens", e.maxNumBatchedTokens, 0);
    PrintOne(e, 16, Flag.Offload(EnableChunkedPrefill), p2);
    var p3 := p2 + Switch("--enable-chunked-prefill", e.enableChunkedPrefill);
    PrintOne(e, 16, Flag.Offload(KvTransferConfig), p3);
  }

  lemma TuningParts(e: Config)
    ensures Part(e, Flag.Tuning(SpeculativeConfig)) == Optional("--speculative-config", e.speculativeConfig)
    ensures Part(e, Flag.Tuning(LimitMmPerPrompt)) == Optional("--limit-mm-per-prompt", e.limitMmPerPrompt)
    ensures Part(e, Flag.Tuning(MaxNumSeqs)) == Above("--max-num-seqs", e.maxNumSeqs, 0)
    ensures Part(e, Flag.Tuning(KvCacheDtypeSkipLayers)) == Optional("--kv-cache-dtype-skip-layers", e.kvCacheDtypeSkipLayers)
    ensures Part(e, Flag.Tuning(EnforceEager)) == Switch("--enforce-eager", e.enforceEager == Some(true))
    ensures Part(e, Flag.Tuning(CompilationConfig)) == Optional("--compilation-config", e.compilationConfig)
  {
    hide Itoa, KVTransferConfig, Transfer;
  }

  lemma TuningIsPrinted(e: Config)
    ensures Print(Between(e, 21, 27)) == Tuning(e)
  {
    hide Between, Print, Part, Optional, Above, Switch, TwoWay, Transfer, Itoa;
    TuningParts(e);
    NothingPrinted(e, 21);
    PrintOne(e, 21, Flag.Tuning(SpeculativeConfig), []);
    var p0 := Optional("--speculative-config", e.speculativeConfig);
    assert [] + p0 == p0;
    PrintOne(e, 21, Flag.Tuning(LimitMmPerPrompt), p0);
    var p1 := p0 + Optional("--limit-mm-per-prompt", e.limitMmPerPrompt);
    PrintOne(e, 21, Flag.Tuning(MaxNumSeqs), p1);
    var p2 := p1 + Above("--max-num-seqs", e.maxNumSeqs, 0);
    PrintOne(e, 21, Flag.Tuning(KvCacheDtypeSkipLayers), p2);
    var p3 := p2 + Optional("--kv-cache-dtype-skip-layers", e.kvCacheDtypeSkipLayers);
    PrintOne(e, 21, Flag.Tuning(EnforceEager), p3);
    var p4 := p3 + Switch("--enforce-eager", e.enforceEager == Some(true));
    PrintOne(e, 21, Flag.Tuning(CompilationConfig), p4);
  }

  lemma LongContextParts(e: Config)
    ensures Part(e, Flag.LongContext(Revision)) == Optional("--revision", e.modelRevision)
    ensures Part(e, Flag.LongContext(CodeRevision)) == Optional("--code-revision", e.codeRevision)
    ensures Part(e, Flag.LongContext(TokenizerRevision)) == Optional("--tokenizer-revision", e.tokenizerRevision)
    ensures Part(e, Flag.LongContext(TrustRemoteCode)) == Switch("--trust-remote-code", e.trustRemoteCode)
    ensures Part(e, Flag.LongContext(DisableCustomAllReduce)) == Switch("--disable-custom-all-reduce", e.disableCustomAllReduce)
    ensures Part(e, Flag.LongContext(EnableFlashinferAutotune)) + Part(e, Flag.LongContext(NoEnableFlashinferAutotune)) ==
      TwoWay("--enable-flashinfer-autotune", "--no-enable-flashinfer-autotune", e.flashinferAutotune)
    ensures Part(e, Flag.LongContext(EngramConfig)) == Optional("--engram-config", e.engramConfig)
  {
    hide Itoa, KVTransferConfig, Transfer;
  }

  lemma LongContextIsPrinted(e: Config)
    ensures Print(Between(e, 30, 38)) == LongContext(e)
  {
    hide Between, Print, Part, Optional, Above, Switch, TwoWay, Transfer, Itoa;
    LongContextParts(e);
    NothingPrinted(e, 30);
    PrintOne(e, 30, Flag.LongContext(Revision), []);
    var p0 := Optional("--revision", e.modelRevision);
    assert [] + p0 == p0;
    PrintOne(e, 30, Flag.LongContext(CodeRevision), p0);
    var p1 := p0 + Optional("--code-revision", e.codeRevision);
    PrintOne(e, 30, Flag.LongContext(TokenizerRevision), p1);
    var p2 := p1 + Optional("--tokenizer-revision", e.tokenizerRevision);
    PrintOne(e, 30, Flag.LongContext(TrustRemoteCode), p2);
    var p3 := p2 + Switch("--trust-remote-code", e.trustRemoteCode);
    PrintOne(e, 30, Flag.LongContext(DisableCustomAllReduce), p3);
    var p4 := p3 + Switch("--disable-custom-all-reduce", e.disableCustomAllReduce);
    PrintOne(e, 30, Flag.LongContext(EnableFlashinferAutotune), p4);
    PrintOne(e, 30, Flag.LongContext(NoEnableFlashinferAutotune), p4 + Part(e, Flag.LongContext(EnableFlashinferAutotune)));
    Associates(p4, Part(e, Flag.LongContext(EnableFlashinferAutotune)), Part(e, Flag.LongContext(NoEnableFlashinferAutotune)));
    var p5 := p4
      + TwoWay("--enable-flashinfer-autotune", "--no-enable-flashinfer-autotune", e.flashinferAutotune);
    PrintOne(e, 30, Flag.LongContext(EngramConfig), p5);
  }

  lemma Associates(a: seq<string>, b: seq<string>, c: seq<string>)
    ensures a + b + c == a + (b + c)
  {
  }

  lemma TransferIsWritten(sizeGiB: int)
    ensures KVTransferConfig(sizeGiB) == Transfer(sizeGiB)
  {
    hide Itoa;
    assert "{\"kv_connector\":\"LMCacheConnectorV1\"," + "\"kv_role\":\"kv_both\"" == KV_HEAD;
  }

  lemma AdapterParts(e: Config)
    ensures Part(e, Flag.Adapter(EnableLora)) == Switch("--enable-lora", e.enableLora == Some(true))
    ensures Part(e, Flag.Adapter(LoraModules)) ==
      (if e.enableLora == Some(true) && Lora.Accepts(e.loraModules) then Optional("--lora-modules", e.loraModules) else [])
    ensures Part(e, Flag.Adapter(MaxLoraRank)) ==
      (if e.enableLora == Some(true) then Above("--max-lora-rank", e.maxLoraRank, 0) else [])
  {
    hide Itoa, Lora.Accepts;
  }

  lemma AdaptersArePrinted(e: Config)
    ensures Print(Between(e, 27, 30)) == Adapters(e)
  {
    hide Between, Print, Part, Optional, Above, Itoa, Lora.Accepts;
    AdapterParts(e);
    NothingPrinted(e, 27);
    var p0, p1 := Part(e, Flag.Adapter(EnableLora)), Part(e, Flag.Adapter(LoraModules));
    assert [] + p0 == p0;
    PrintOne(e, 27, Flag.Adapter(EnableLora), []);
    PrintOne(e, 27, Flag.Adapter(LoraModules), p0);
    PrintOne(e, 27, Flag.Adapter(MaxLoraRank), p0 + p1);
  }

  // What BuildArgs prints is exactly that.
  lemma PrintedIsExpected(e: Config)
    ensures Print(View(e)) == Expected(e)
  {
    hide Print, Between, Serving, Parsing, Caching, Offloading, Tuning, Adapters, LongContext;
    ServingIsPrinted(e);
    ParsingIsPrinted(e);
    CachingIsPrinted(e);
    OffloadingIsPrinted(e);
    TuningIsPrinted(e);
    AdaptersArePrinted(e);
    LongContextIsPrinted(e);
    var p1 := Serving(e) + Parsing(e);
    Together(e, 0, 6, 11, Serving(e), Parsing(e));
    var p2 := p1 + Caching(e);
    Together(e, 0, 11, 16, p1, Caching(e));
    var p3 := p2 + Offloading(e);
    Together(e, 0, 16, 21, p2, Offloading(e));
    var p4 := p3 + Tuning(e);
    Together(e, 0, 21, 27, p3, Tuning(e));
    var p5 := p4 + Adapters(e);
    Together(e, 0, 27, 30, p4, Adapters(e));
    Together(e, 0, 30, FLAGS, p5, LongContext(e));
  }
}
