/** Assembly of the system prompt from prompt templates
    (tool/vlm_curation_deprecated/prompt_loader.py). Reading a template file
    and formatting it is one abstract `Renderer`. */
module PromptLoader {
  import opened Wrappers
  import opened Messages

  /** What the template stored at a path formats to. */
  type Renderer = string -> seq<Message>

  const BasePath: string := "prompts"
  const ModalityPath: string := BasePath + "/modality"

  /** The modality names the template table knows, in the table's order. */
  const Modalities: seq<string> :=
    ["waveform_single", "waveform_multi", "autocorr", "spike_locations", "amplitude_plot"]

  /** The template table: one entry per fixed block, one per modality. */
  datatype Prompts = Prompts(
    head: seq<Message>,
    modality: map<string, seq<Message>>,
    metrics: seq<Message>,
    fewshot: seq<Message>,
    instruction: seq<Message>)

  function ModalityFile(key: string): string
  {
    ModalityPath + "/" + key + ".txt"
  }

  /** The table built from the prompt files: the modality keys are exactly
      the five known modalities, each bound to its own file. */
  function LoadAllPrompts(render: Renderer): (p: Prompts)
    ensures p.modality.Keys == set k | k in Modalities
    ensures forall k :: k in p.modality ==> p.modality[k] == render(ModalityFile(k))
  {
    Prompts(
      render(BasePath + "/head.txt"),
      map[
        "waveform_single" := render(ModalityFile("waveform_single")),
        "waveform_multi" := render(ModalityFile("waveform_multi")),
        "autocorr" := render(ModalityFile("autocorr")),
        "spike_locations" := render(ModalityFile("spike_locations")),
        "amplitude_plot" := render(ModalityFile("amplitude_plot"))],
      render(BasePath + "/metrics.txt"),
      render(BasePath + "/fewshot_instruction.txt"),
      render(BasePath + "/instruction.txt"))
  }

  function UnknownModality(key: string): Exception
  {
    ValueError("Unknown modality: " + key)
  }

  /** The block of one requested modality, or the error for an unknown key. */
  function ModalityBlock(p: Prompts): string -> Result<seq<Message>>
  {
    key => if key in p.modality then Ok(p.modality[key]) else Err(UnknownModality(key))
  }

  function Optional(present: bool, block: seq<Message>): seq<Message>
  {
    if present then block else []
  }

  /** The prompt `build_prompt_messages` returns for a template table. */
  function Assemble(p: Prompts, modalities: seq<string>, withMetrics: bool, withFewshot: bool)
    : Result<seq<Message>>
  {
    match Traverse(modalities, ModalityBlock(p))
    case Err(e) => Err(e)
    case Ok(blocks) =>
      Ok(p.head + Concat(blocks) + Optional(withMetrics, p.metrics)
         + Optional(withFewshot, p.fewshot) + p.instruction)
  }

  /** `build_prompt_messages`: loads the template table, then formats it. */
  method BuildPromptMessages(render: Renderer, modalities: seq<string>, withMetrics: bool, withFewshot: bool)
    returns (r: Result<seq<Message>>)
    ensures r == Assemble(LoadAllPrompts(render), modalities, withMetrics, withFewshot)
  {
    var prompts := LoadAllPrompts(render);
    r := FormatPrompt(prompts, modalities, withMetrics, withFewshot);
  }

  /** The body of `build_prompt_messages` after the table is loaded: head,
      the requested modality blocks in the order given, metrics and few-shot
      blocks when asked for, instruction. */
  method FormatPrompt(prompts: Prompts, modalities: seq<string>, withMetrics: bool, withFewshot: bool)
    returns (r: Result<seq<Message>>)
    ensures r == Assemble(prompts, modalities, withMetrics, withFewshot)
  {
    ghost var f := ModalityBlock(prompts);
    var messages := prompts.head;
    ghost var blocks: seq<seq<Message>> := [];
    var i := 0;
    assert modalities[i..] == modalities;
    ConsUnit(blocks, Traverse(modalities, f));
    while i < |modalities|
      invariant 0 <= i <= |modalities|
      invariant messages == prompts.head + Concat(blocks)
      invariant Traverse(modalities, f) == Cons(blocks, Traverse(modalities[i..], f))
    {
      var key := modalities[i];
      TraverseStep(modalities, f, i, blocks);
      assert f(key) == if key in prompts.modality then Ok(prompts.modality[key]) else Err(UnknownModality(key));
      if key !in prompts.modality {
        assert Traverse(modalities, f) == Err(UnknownModality(key));
        return Err(UnknownModality(key));
      }
      ConcatSnoc(blocks, prompts.modality[key]);
      messages := messages + prompts.modality[key];
      blocks := blocks + [prompts.modality[key]];
      i := i + 1;
    }
    assert modalities[i..] == [];
    ConsUnit(blocks, Traverse(modalities, f));
    assert Traverse(modalities, f) == Ok(blocks);
    if withMetrics {
      messages := messages + prompts.metrics;
    }
    if withFewshot {
      messages := messages + prompts.fewshot;
    }
    messages := messages + prompts.instruction;
    r := Ok(messages);
    assert messages == prompts.head + Concat(blocks) + Optional(withMetrics, prompts.metrics)
      + Optional(withFewshot, prompts.fewshot) + prompts.instruction;
  }

  /** `modalities[k]` is the first requested key the table does not know. */
  predicate FirstUnknown(p: Prompts, modalities: seq<string>, k: int)
  {
    && 0 <= k < |modalities|
    && modalities[k] !in p.modality
    && forall j :: 0 <= j < k ==> modalities[j] in p.modality
  }

  /** Any key outside the table raises `ValueError` naming the first such
      key, and no prompt is returned; otherwise a prompt is returned. */
  lemma UnknownModalityRaises(p: Prompts, modalities: seq<string>, withMetrics: bool, withFewshot: bool)
    ensures Assemble(p, modalities, withMetrics, withFewshot).Err?
        <==> exists i :: 0 <= i < |modalities| && modalities[i] !in p.modality
    ensures forall k :: FirstUnknown(p, modalities, k)
               ==> Assemble(p, modalities, withMetrics, withFewshot) == Err(UnknownModality(modalities[k]))
  {
    TraverseOk(modalities, ModalityBlock(p));
    forall k | FirstUnknown(p, modalities, k)
      ensures Assemble(p, modalities, withMetrics, withFewshot) == Err(UnknownModality(modalities[k]))
    {
      TraverseFirstErr(modalities, ModalityBlock(p), k);
    }
  }

  /** With the loaded table, a request is accepted exactly when every key is
      one of the five known modalities. */
  lemma ModalityVocabulary(render: Renderer, modalities: seq<string>, withMetrics: bool, withFewshot: bool)
    ensures Assemble(LoadAllPrompts(render), modalities, withMetrics, withFewshot).Ok?
        <==> forall i :: 0 <= i < |modalities| ==> modalities[i] in Modalities
  {
    UnknownModalityRaises(LoadAllPrompts(render), modalities, withMetrics, withFewshot);
  }

  /** When every template formats to one message: the head comes first, then
      one block per requested modality in the order given (repeated keys give
      repeated blocks), then metrics and few-shot when asked for, and the
      instruction last. */
  lemma SingleMessageLayout(p: Prompts, modalities: seq<string>, withMetrics: bool, withFewshot: bool)
    requires |p.head| == 1 && |p.metrics| == 1 && |p.fewshot| == 1 && |p.instruction| == 1
    requires forall k :: k in p.modality ==> |p.modality[k]| == 1
    requires forall i :: 0 <= i < |modalities| ==> modalities[i] in p.modality
    ensures Assemble(p, modalities, withMetrics, withFewshot).Ok?
    ensures var r := Assemble(p, modalities, withMetrics, withFewshot).value;
      && |r| == 2 + |modalities| + Count(withMetrics) + Count(withFewshot)
      && r[0] == p.head[0]
      && (forall i :: 0 <= i < |modalities| ==> r[1 + i] == p.modality[modalities[i]][0])
      && (withMetrics ==> r[1 + |modalities|] == p.metrics[0])
      && (withFewshot ==> r[1 + |modalities| + Count(withMetrics)] == p.fewshot[0])
      && r[|r| - 1] == p.instruction[0]
  {
    var f := ModalityBlock(p);
    TraverseOk(modalities, f);
    var blocks := Traverse(modalities, f).value;
    assert forall i :: 0 <= i < |modalities| ==> blocks[i] == p.modality[modalities[i]];
    ConcatSingletons(blocks);
    var r := Assemble(p, modalities, withMetrics, withFewshot).value;
    var mid := p.head + Concat(blocks);
    assert r == mid + Optional(withMetrics, p.metrics) + Optional(withFewshot, p.fewshot) + p.instruction;
    forall i | 0 <= i < |modalities| ensures r[1 + i] == p.modality[modalities[i]][0] {
      assert r[1 + i] == mid[1 + i] == Concat(blocks)[i];
    }
  }
}
