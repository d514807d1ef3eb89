/** The storyboard pipeline: resolving a run's prompts from a script or a
    prompt list, creating one storyboard item per prompt, generating the images
    strictly in order, retrying one failed item, and the two exports. */
module App {
  import opened Types
  import opened JsString
  import opened GeminiService

  /** The default prompt-generation instruction, one constant per paragraph or list item. */
  const DefaultAiInstruction := InstructionIntro + "\n\nGuidelines:\n" + VisualGuideline + "\n" + MoodGuideline + "\n" + FormatGuideline
  const InstructionIntro := "Analyze the provided script and generate a series of detailed, vivid, and imaginative prompts for an AI image generator. Each prompt should correspond to a paragraph or a logical scene from the script."
  const VisualGuideline := "- Focus on visual details: Describe characters, settings, lighting, colors, and atmosphere."
  const MoodGuideline := "- Convey mood and tension: Use descriptive language to evoke emotions like suspense, joy, or mystery (e.g., \"long, distorted shadows in a dimly lit room\")."
  const FormatGuideline := "- The output format must be strictly in JSON, containing a single key \"prompts\" with an array of strings. Each string is a self-contained prompt."
  const DefaultStyleKeywords := "cinematic, photorealistic, 4k"

  const UnknownErrorMessage := "An unknown error occurred."
  const EmptyScriptMessage := "Script content cannot be empty."
  const EmptyPromptsMessage := "Prompts cannot be empty."
  const NoScriptPromptsMessage := "The script did not yield any prompts. Try adjusting the script or AI instructions."
  const NoValidPromptsMessage := "No valid prompts found to generate images."
  const PromptGenerationErrorPrefix := "Error during prompt generation: "

  /** The message recorded for a thrown value: an `Error`'s own message, or a
      generic one for anything else. */
  function MessageOf(t: Thrown): string
  {
    match t
    case ErrorValue(m) => m
    case NonErrorValue => UnknownErrorMessage
  }

  // ---------------------------------------------------------------------
  // Prompt lists

  /** A line of the prompt box that counts as a prompt. */
  predicate IsPromptLine(line: string)
  {
    Trim(line) != ""
  }

  /** The prompts of a newline-separated prompt list: its non-blank lines, in
      order and untrimmed. */
  function ParsePromptList(text: string): seq<string>
  {
    Filter(Split(text, '\n'), IsPromptLine)
  }

  /** The exported prompt file: the prompts joined by newlines. */
  function ExportPrompts(ps: seq<string>): string
  {
    Join(ps, '\n')
  }

  /** Every parsed prompt is a non-blank, newline-free line of the text. */
  lemma ParsedPromptsAreLines(text: string)
    ensures forall k :: 0 <= k < |ParsePromptList(text)| ==>
              var p := ParsePromptList(text)[k];
              !Blank(p) && '\n' !in p && p in Split(text, '\n')
  {
    var ps := ParsePromptList(text);
    forall k | 0 <= k < |ps| ensures !Blank(ps[k]) {
      TrimEmptyIffBlank(ps[k]);
    }
  }

  /** A single line is one prompt, or none when it is blank. */
  lemma ParseSingleLine(line: string)
    requires '\n' !in line
    ensures ParsePromptList(line) == if Blank(line) then [] else [line]
  {
    SplitWithoutSeparator(line, '\n');
    TrimEmptyIffBlank(line);
  }

  /** The first line contributes its prompt, if any, in front of the prompts of
      the rest of the text. Together with ParseSingleLine this determines
      ParsePromptList completely. */
  lemma ParseFirstLine(line: string, rest: string)
    requires '\n' !in line
    ensures ParsePromptList(line + "\n" + rest) ==
              (if Blank(line) then [] else [line]) + ParsePromptList(rest)
  {
    SplitAtFirstSeparator(line, '\n', rest);
    FilterConcat([line], Split(rest, '\n'), IsPromptLine);
    TrimEmptyIffBlank(line);
  }

  /** Exporting then parsing gives back any list of non-blank, newline-free prompts. */
  lemma ExportParseRoundTrip(ps: seq<string>)
    requires forall k :: 0 <= k < |ps| ==> !Blank(ps[k]) && '\n' !in ps[k]
    ensures ParsePromptList(ExportPrompts(ps)) == ps
  {
    if |ps| == 0 {
      assert Split("", '\n') == [""];
      TrimEmptyIffBlank("");
    } else {
      SplitJoin(ps, '\n');
      forall k | 0 <= k < |ps| ensures IsPromptLine(ps[k]) {
        TrimEmptyIffBlank(ps[k]);
      }
      FilterKeepsAll(ps, IsPromptLine);
    }
  }

  /** A text whose fields are all blank is blank, newlines being whitespace. */
  lemma {:induction false} BlankJoin(xs: seq<string>)
    requires forall k :: 0 <= k < |xs| ==> Blank(xs[k])
    ensures Blank(Join(xs, '\n'))
  {
    if |xs| > 1 {
      BlankJoin(xs[1..]);
      var j := Join(xs, '\n');
      assert j == xs[0] + ("\n" + Join(xs[1..], '\n'));
      forall i | 0 <= i < |j| ensures IsWhitespace(j[i]) {
        if i >= |xs[0]| + 1 {
          assert j[i] == Join(xs[1..], '\n')[i - |xs[0]| - 1];
        }
      }
    }
  }

  /** A non-blank prompt text always has at least one prompt. */
  lemma NonBlankTextHasPrompt(text: string)
    ensures !Blank(text) ==> |ParsePromptList(text)| > 0
  {
    var fields := Split(text, '\n');
    if |ParsePromptList(text)| == 0 {
      FilterEmptyRejectsAll(fields, IsPromptLine);
      forall k | 0 <= k < |fields| ensures Blank(fields[k]) {
        TrimEmptyIffBlank(fields[k]);
      }
      BlankJoin(fields);
      JoinSplit(text, '\n');
    }
  }

  /** Blank lines, including the empty one after a final newline, are dropped. */
  lemma ParseDropsBlankLines(a: string, b: string)
    requires '\n' !in a && '\n' !in b && !Blank(a) && !Blank(b)
    ensures ParsePromptList(a + "\n\n" + b + "\n") == [a, b]
  {
    var tail := b + "\n" + "";
    var rest := "" + "\n" + tail;
    assert a + "\n\n" + b + "\n" == a + "\n" + rest;
    ParseFirstLine(a, rest);
    ParseFirstLine("", tail);
    ParseFirstLine(b, "");
    ParseSingleLine("");
  }

  lemma ParseExample()
    ensures ParsePromptList("cat on a roof\n\nfox in snow\n") == ["cat on a roof", "fox in snow"]
  {
    var cat, fox := "cat on a roof", "fox in snow";
    assert !IsWhitespace(cat[0]) && !IsWhitespace(fox[0]);
    assert "cat on a roof\n\nfox in snow\n" == cat + "\n\n" + fox + "\n";
    ParseDropsBlankLines(cat, fox);
  }

  // ---------------------------------------------------------------------
  // Prompt resolution

  /** The prompts of a run, or the message a run stops with before any image request. */
  datatype Resolution = Resolved(prompts: seq<string>) | Rejected(message: string)

  /** The remote calls a run makes, in order: the prompt-generation request
      text, or the content parts of an image request. */
  datatype ServiceCall = PromptCall(request: string) | ImageCall(parts: seq<RequestPart>)

  /** Resolves the prompts of a run from the chosen content source; `stage1` is
      the service's answer to the prompt-generation request. */
  function ResolvePrompts(mode: ContentType, script: string, promptsText: string, stage1: PromptsReply): (r: Resolution)
    ensures r.Resolved? ==> |r.prompts| > 0
  {
    if mode == Script then
      if Trim(script) == "" then Rejected(EmptyScriptMessage)
      else
        match GeneratePromptsFromScript(stage1)
        case Err(t) => Rejected(PromptGenerationErrorPrefix + MessageOf(t))
        case Ok(ps) => if |ps| == 0 then Rejected(NoScriptPromptsMessage) else Resolved(ps)
    else
      if Trim(promptsText) == "" then Rejected(EmptyPromptsMessage)
      else
        var ps := ParsePromptList(promptsText);
        if |ps| == 0 then Rejected(NoValidPromptsMessage) else Resolved(ps)
  }

  /** The prompt-generation call a run makes: one exactly when the source is a
      non-blank script. */
  function StageOneCalls(mode: ContentType, script: string, niche: string, instruction: string): seq<ServiceCall>
  {
    if mode == Script && Trim(script) != "" then [PromptCall(PromptRequestText(script, niche, instruction))] else []
  }

  /** The prompts a run shows as generated: the prompt-generation answer's
      prompts when a non-blank script was sent and the call succeeded, otherwise none. */
  function GeneratedPrompts(mode: ContentType, script: string, stage1: PromptsReply): seq<string>
  {
    if mode == Script && Trim(script) != "" && GeneratePromptsFromScript(stage1).Ok? then
      GeneratePromptsFromScript(stage1).value
    else []
  }

  /** Generated prompts are shown only for a script, and whenever some are shown
      they are exactly the prompts the run goes on to generate images for. */
  lemma GeneratedPromptsAreRunPrompts(mode: ContentType, script: string, promptsText: string, stage1: PromptsReply)
    ensures mode == Prompts ==> GeneratedPrompts(mode, script, stage1) == []
    ensures GeneratedPrompts(mode, script, stage1) != [] ==>
              ResolvePrompts(mode, script, promptsText, stage1) == Resolved(GeneratedPrompts(mode, script, stage1))
  {
  }

  /** The image request sent for one prompt with the given settings: none when
      the reference URL cannot be parsed. */
  function ImageRequest(prompt: string, style: string, ratio: AspectRatio,
                        referenceImageUrl: Option<string>): seq<ServiceCall>
  {
    SentCalls(ImageRequestParts(prompt, style, ratio, referenceImageUrl))
  }

  /** The image call recorded for the content parts a request sent, if any. */
  function SentCalls(sent: Option<seq<RequestPart>>): seq<ServiceCall>
  {
    match sent
    case None => []
    case Some(parts) => [ImageCall(parts)]
  }

  /** The image requests sent for the prompts of a run, in order: none at all
      when the reference URL cannot be parsed, and otherwise one per prompt,
      carrying that prompt's content parts. */
  function ImageCalls(ps: seq<string>, style: string, ratio: AspectRatio,
                      referenceImageUrl: Option<string>): (r: seq<ServiceCall>)
    ensures ReferenceFails(referenceImageUrl) ==> r == []
    ensures !ReferenceFails(referenceImageUrl) ==>
              && |r| == |ps|
              && forall k :: 0 <= k < |r| ==>
                   r[k] == ImageCall(ImageRequestParts(ps[k], style, ratio, referenceImageUrl).value)
  {
    if |ps| == 0 then []
    else
      ImageRequestCarriesSettings(ps[0], style, ratio, referenceImageUrl);
      ImageRequest(ps[0], style, ratio, referenceImageUrl) + ImageCalls(ps[1..], style, ratio, referenceImageUrl)
  }

  /** Every image request of a run carries the run's settings: its last part is
      an instruction holding the aspect-ratio text, the quoted prompt and the
      style keywords, and with a reference image its first part is the parsed
      reference. */
  lemma ImageCallsCarrySettings(ps: seq<string>, style: string, ratio: AspectRatio,
                                referenceImageUrl: Option<string>, k: int)
    requires !ReferenceFails(referenceImageUrl) && 0 <= k < |ps|
    ensures var c := ImageCalls(ps, style, ratio, referenceImageUrl)[k];
            var last := c.parts[|c.parts| - 1];
            && c.ImageCall?
            && |c.parts| == (if HasReference(referenceImageUrl) then 2 else 1)
            && last.TextPart?
            && Contains(last.text, ratio.Text())
            && Contains(last.text, Quoted(ps[k]))
            && Contains(last.text, style)
            && (HasReference(referenceImageUrl) ==> c.parts[0] == DataUrlToPart(referenceImageUrl.value).value)
  {
    ImageRequestCarriesSettings(ps[k], style, ratio, referenceImageUrl);
  }

  /** A blank script or a blank prompt text stops the run with its own message,
      before any remote call. */
  lemma BlankSourceRejected(mode: ContentType, script: string, promptsText: string, niche: string,
                            instruction: string, stage1: PromptsReply)
    requires mode == Script ==> Blank(script)
    requires mode == Prompts ==> Blank(promptsText)
    ensures ResolvePrompts(mode, script, promptsText, stage1) ==
              Rejected(if mode == Script then EmptyScriptMessage else EmptyPromptsMessage)
    ensures StageOneCalls(mode, script, niche, instruction) == []
  {
    TrimEmptyIffBlank(script);
    TrimEmptyIffBlank(promptsText);
  }

  /** For a non-blank script, a failed prompt-generation call stops the run with
      the prefixed message; an answer with no prompts (the field absent, falsy or
      empty) stops it with its own message; otherwise the answer's prompts are
      the run's prompts. */
  lemma ScriptSourceResolution(script: string, promptsText: string, stage1: PromptsReply)
    requires !Blank(script)
    ensures stage1.CallFailed? ==>
              ResolvePrompts(Script, script, promptsText, stage1) ==
              Rejected(PromptGenerationErrorPrefix + MessageOf(stage1.thrown))
    ensures stage1.Replied? && (stage1.body.None? || stage1.body.value == []) ==>
              ResolvePrompts(Script, script, promptsText, stage1) == Rejected(NoScriptPromptsMessage)
    ensures stage1.Replied? && stage1.body.Some? && stage1.body.value != [] ==>
              ResolvePrompts(Script, script, promptsText, stage1) == Resolved(stage1.body.value)
  {
    TrimEmptyIffBlank(script);
  }

  /** For a non-blank prompt text the run's prompts are its non-blank lines; the
      "no valid prompts" rejection cannot happen. */
  lemma PromptListResolution(script: string, promptsText: string, stage1: PromptsReply)
    requires !Blank(promptsText)
    ensures ResolvePrompts(Prompts, script, promptsText, stage1) == Resolved(ParsePromptList(promptsText))
  {
    TrimEmptyIffBlank(promptsText);
    NonBlankTextHasPrompt(promptsText);
  }

  /** A one-sentence script whose prompt generation yields one prompt gives a
      one-item pending storyboard for that prompt. */
  lemma ScriptExample(promptsText: string)
    ensures var p := "A hero walks into a dark forest, lit by moonlight.";
            var r := ResolvePrompts(Script, "A hero walks into a dark forest.", promptsText, Replied(Some([p])));
            r == Resolved([p]) && InitialStoryboard(r.prompts) == [StoryboardImage(p, None, Pending, None)]
  {
    var s := "A hero walks into a dark forest.";
    assert !IsWhitespace(s[0]);
    ScriptSourceResolution(s, promptsText, Replied(Some(["A hero walks into a dark forest, lit by moonlight."])));
  }

  // ---------------------------------------------------------------------
  // Storyboard runs

  /** The storyboard a run starts from: one pending item without image per prompt. */
  function InitialStoryboard(ps: seq<string>): (r: seq<StoryboardImage>)
    ensures |r| == |ps|
    ensures forall k :: 0 <= k < |r| ==>
              r[k].prompt == ps[k] && r[k].status == Pending && r[k].imageUrl == None && Consistent(r[k])
  {
    seq(|ps|, k requires 0 <= k < |ps| => StoryboardImage(ps[k], None, Pending, None))
  }

  /** The item as it is while its image is requested during a run. */
  function MarkGenerating(img: StoryboardImage): StoryboardImage
  {
    img.(status := Generating)
  }

  /** The item as it is while its image is requested again by a retry. */
  function MarkRetrying(img: StoryboardImage): StoryboardImage
  {
    img.(status := Generating, errorMessage := None)
  }

  /** The item once its image request has settled. */
  function Settle(img: StoryboardImage, outcome: Outcome<string>): StoryboardImage
  {
    match outcome
    case Ok(url) => img.(status := Success, imageUrl := Some(url))
    case Err(t) => img.(status := Error, errorMessage := Some(MessageOf(t)))
  }

  /** The outcome of each prompt's image request; request `k` is answered by `stage2(k)`. */
  function Outcomes(ps: seq<string>, referenceImageUrl: Option<string>, stage2: nat -> ImageReply): (r: seq<Outcome<string>>)
    ensures |r| == |ps|
  {
    seq(|ps|, k requires 0 <= k < |ps| => ImageCallResult(referenceImageUrl, stage2(k)))
  }

  /** The storyboard after the first `i` items of a run have settled. */
  function RunState(init: seq<StoryboardImage>, outcomes: seq<Outcome<string>>, i: nat): (r: seq<StoryboardImage>)
    requires |outcomes| == |init| && i <= |init|
    ensures |r| == |init|
  {
    seq(|init|, k requires 0 <= k < |init| => if k < i then Settle(MarkGenerating(init[k]), outcomes[k]) else init[k])
  }

  /** Step `i` of a run changes item `i` and nothing else. */
  lemma RunStepChangesOnlyItsIndex(init: seq<StoryboardImage>, outcomes: seq<Outcome<string>>, i: nat)
    requires |outcomes| == |init| && i < |init|
    ensures RunState(init, outcomes, i + 1) ==
              RunState(init, outcomes, i)[i := Settle(MarkGenerating(RunState(init, outcomes, i)[i]), outcomes[i])]
  {
  }

  /** After `i` steps of a run the items keep their prompts, the items below `i`
      have settled, the items from `i` on are still pending, and every item
      satisfies the status invariant. */
  lemma RunStateShape(ps: seq<string>, outcomes: seq<Outcome<string>>, i: nat)
    requires |outcomes| == |ps| && i <= |ps|
    ensures var s := RunState(InitialStoryboard(ps), outcomes, i);
            && AllConsistent(s)
            && (forall k :: 0 <= k < |s| ==> s[k].prompt == ps[k])
            && (forall k :: 0 <= k < i ==> Settled(s[k]))
            && (forall k :: i <= k < |s| ==> s[k].status == Pending)
  {
  }

  /** A finished run settles every item with its own request's outcome alone: a
      failure records its message and does not stop or affect the other items. */
  lemma RunSettlesEachItemByItsOwnOutcome(ps: seq<string>, outcomes: seq<Outcome<string>>)
    requires |outcomes| == |ps|
    ensures var s := RunState(InitialStoryboard(ps), outcomes, |ps|);
            forall k :: 0 <= k < |ps| ==>
              s[k] == match outcomes[k]
                      case Ok(url) => StoryboardImage(ps[k], Some(url), Success, None)
                      case Err(t) => StoryboardImage(ps[k], None, Error, Some(MessageOf(t)))
  {
  }

  /** `step` is the pair of storyboards around step `j` of a run: item `j`
      marked generating, then item `j` settled. */
  predicate StepOfRun(step: (seq<StoryboardImage>, seq<StoryboardImage>), init: seq<StoryboardImage>,
                      outcomes: seq<Outcome<string>>, j: nat)
  {
    && |outcomes| == |init| && j < |init|
    && step.0 == RunState(init, outcomes, j)[j := MarkGenerating(init[j])]
    && step.1 == RunState(init, outcomes, j + 1)
  }

  /** `steps` records every step of a run, in order. */
  predicate RunSteps(steps: seq<(seq<StoryboardImage>, seq<StoryboardImage>)>, init: seq<StoryboardImage>,
                     outcomes: seq<Outcome<string>>)
  {
    |steps| == |init| && forall j :: 0 <= j < |steps| ==> StepOfRun(steps[j], init, outcomes, j)
  }

  /** `steps` records the first `i` steps of a run, in order. */
  predicate StepsSoFar(steps: seq<(seq<StoryboardImage>, seq<StoryboardImage>)>, init: seq<StoryboardImage>,
                       outcomes: seq<Outcome<string>>, i: nat)
  {
    |steps| == i && forall j :: 0 <= j < i ==> StepOfRun(steps[j], init, outcomes, j)
  }

  /** Step `i` of a run marks item `i` generating and then settles it; recording
      that pair extends the steps so far by one. */
  lemma RunStepRecorded(init: seq<StoryboardImage>, outcomes: seq<Outcome<string>>,
                        steps: seq<(seq<StoryboardImage>, seq<StoryboardImage>)>, i: nat)
    requires |outcomes| == |init| && i < |init| && StepsSoFar(steps, init, outcomes, i)
    ensures var s := RunState(init, outcomes, i);
            var marked := s[i := MarkGenerating(s[i])];
            var settled := marked[i := Settle(marked[i], outcomes[i])];
            && settled == RunState(init, outcomes, i + 1)
            && StepsSoFar(steps + [(marked, settled)], init, outcomes, i + 1)
  {
    var s := RunState(init, outcomes, i);
    RunStepChangesOnlyItsIndex(init, outcomes, i);
    assert s[i] == init[i];
    var marked := s[i := MarkGenerating(s[i])];
    var settled := marked[i := Settle(marked[i], outcomes[i])];
    assert StepOfRun((marked, settled), init, outcomes, i);
    assert forall j :: 0 <= j < i ==> (steps + [(marked, settled)])[j] == steps[j];
  }

  /** Every storyboard a run passes through satisfies the status invariant. */
  lemma RunStepsConsistent(ps: seq<string>, outcomes: seq<Outcome<string>>,
                           steps: seq<(seq<StoryboardImage>, seq<StoryboardImage>)>)
    requires RunSteps(steps, InitialStoryboard(ps), outcomes)
    ensures forall j :: 0 <= j < |steps| ==> AllConsistent(steps[j].0) && AllConsistent(steps[j].1)
  {
    forall j | 0 <= j < |steps| ensures AllConsistent(steps[j].0) && AllConsistent(steps[j].1) {
      assert StepOfRun(steps[j], InitialStoryboard(ps), outcomes, j);
      RunStateShape(ps, outcomes, j);
      RunStateShape(ps, outcomes, j + 1);
    }
  }

  lemma ImageCallsAppend(ps: seq<string>, i: nat, style: string, ratio: AspectRatio,
                         referenceImageUrl: Option<string>)
    requires i < |ps|
    ensures ImageCalls(ps[..i + 1], style, ratio, referenceImageUrl) ==
              ImageCalls(ps[..i], style, ratio, referenceImageUrl) + ImageRequest(ps[i], style, ratio, referenceImageUrl)
  {
    var whole := ImageCalls(ps[..i + 1], style, ratio, referenceImageUrl);
    var before := ImageCalls(ps[..i], style, ratio, referenceImageUrl);
    var last := ImageRequest(ps[i], style, ratio, referenceImageUrl);
    ImageRequestCarriesSettings(ps[i], style, ratio, referenceImageUrl);
    if !ReferenceFails(referenceImageUrl) {
      assert last == [ImageCall(ImageRequestParts(ps[i], style, ratio, referenceImageUrl).value)];
      ImageCallsPrefixAgree(ps, i, style, ratio, referenceImageUrl);
      assert whole == before + last;
    }
  }

  lemma ImageCallsPrefixAgree(ps: seq<string>, i: nat, style: string, ratio: AspectRatio,
                              referenceImageUrl: Option<string>)
    requires i < |ps| && !ReferenceFails(referenceImageUrl)
    ensures forall k :: 0 <= k < i ==>
              ImageCalls(ps[..i + 1], style, ratio, referenceImageUrl)[k] == ImageCalls(ps[..i], style, ratio, referenceImageUrl)[k]
  {
    forall k | 0 <= k < i
      ensures ImageCalls(ps[..i + 1], style, ratio, referenceImageUrl)[k] == ImageCalls(ps[..i], style, ratio, referenceImageUrl)[k]
    {
      assert ps[..i + 1][k] == ps[..i][k];
    }
  }

  /** A finished run leaves every item at rest: settled, consistent, and
      holding a data URL when it succeeded. */
  lemma RunEndsAtRest(ps: seq<string>, referenceImageUrl: Option<string>, stage2: nat -> ImageReply)
    ensures var s := RunState(InitialStoryboard(ps), Outcomes(ps, referenceImageUrl, stage2), |ps|);
            forall k :: 0 <= k < |s| ==> AtRest(s[k])
  {
    var outs := Outcomes(ps, referenceImageUrl, stage2);
    RunStateShape(ps, outs, |ps|);
    forall k | 0 <= k < |ps| ensures outs[k].Ok? ==> |outs[k].value| >= 5 && outs[k].value[..5] == "data:" {
      assert outs[k] == ImageCallResult(referenceImageUrl, stage2(k));
    }
  }

  /** An exported image is a success with a non-empty URL. */
  predicate IsExportable(img: StoryboardImage)
  {
    img.status == Success && img.imageUrl.Some? && img.imageUrl.value != ""
  }

  /** An item at rest between operations: consistent, settled, and holding a
      data URL when it succeeded. */
  predicate AtRest(img: StoryboardImage)
  {
    && Consistent(img)
    && Settled(img)
    && (img.status == Success ==> |img.imageUrl.value| >= 5 && img.imageUrl.value[..5] == "data:")
  }

  // ---------------------------------------------------------------------
  // Image export

  datatype ZipEntry = ZipEntry(name: string, base64Data: Option<string>)

  /** The items that go into the archive, in storyboard order. */
  function SuccessfulImages(storyboard: seq<StoryboardImage>): seq<StoryboardImage>
  {
    Filter(storyboard, IsExportable)
  }

  /** The archive name of the `n`-th exported image (counting from 1). */
  function ZipFileName(n: nat): string
  {
    "image_" + DecimalString(n) + ".jpeg"
  }

  /** The archive payload of an image URL: its second comma field, if any. */
  function ZipPayload(url: string): Option<string>
  {
    var fields := Split(url, ',');
    if |fields| > 1 then Some(fields[1]) else None
  }

  /** Builds the archive entries: one per exported item, named by its position
      among them, holding the base64 payload of its URL. */
  method ZipEntries(storyboard: seq<StoryboardImage>) returns (files: seq<ZipEntry>)
    ensures |files| == |SuccessfulImages(storyboard)|
    ensures forall i :: 0 <= i < |files| ==>
              SuccessfulImages(storyboard)[i].imageUrl.Some? &&
              files[i] == ZipEntry(ZipFileName(i + 1), ZipPayload(SuccessfulImages(storyboard)[i].imageUrl.value))
  {
    var successfulImages := SuccessfulImages(storyboard);
    files := [];
    for i := 0 to |successfulImages|
      invariant |files| == i
      invariant forall j :: 0 <= j < i ==>
                  files[j] == ZipEntry(ZipFileName(j + 1), ZipPayload(successfulImages[j].imageUrl.value))
    {
      var imgData := ZipPayload(successfulImages[i].imageUrl.value);
      files := files + [ZipEntry(ZipFileName(i + 1), imgData)];
    }
  }

  /** Archive names are pairwise distinct. */
  lemma ZipFileNamesDistinct(m: nat, n: nat)
    requires ZipFileName(m) == ZipFileName(n)
    ensures m == n
  {
    var a, b := ZipFileName(m), ZipFileName(n);
    assert DecimalString(m) == a[6..|a| - 5];
    assert DecimalString(n) == b[6..|b| - 5];
    DecimalStringInjective(m, n);
  }

  /** The payload of a generated image's data URL is its base64 data. */
  lemma ZipPayloadOfDataUrl(d: InlineData)
    requires ',' !in d.mimeType && ',' !in d.data
    ensures ZipPayload(FormatDataUrl(d)) == Some(d.data)
  {
    DataUrlFields(d);
  }

  /** When every success holds a non-empty URL, as between operations, the
      archive holds exactly the successful items. */
  lemma {:induction false} ExportSelectsEverySuccess(storyboard: seq<StoryboardImage>)
    requires forall k :: 0 <= k < |storyboard| ==> AtRest(storyboard[k])
    ensures SuccessfulImages(storyboard) == Filter(storyboard, (img: StoryboardImage) => img.status == Success)
  {
    if |storyboard| > 0 {
      ExportSelectsEverySuccess(storyboard[1..]);
    }
  }

  // ---------------------------------------------------------------------
  // The application state

  class App {
    var contentType: ContentType
    var script: string
    var prompts: string
    var niche: string
    var referenceImageUrl: Option<string>
    var styleKeywords: string
    var aspectRatio: AspectRatio
    var aiPromptInstruction: string

    var generatedPrompts: seq<string>
    var storyboard: seq<StoryboardImage>
    var isLoadingPrompts: bool
    var error: Option<string>

    /** Between operations no prompt generation is pending and every item is at rest. */
    ghost predicate Valid()
      reads this
    {
      && !isLoadingPrompts
      && forall k :: 0 <= k < |storyboard| ==> AtRest(storyboard[k])
    }

    /** The application as it starts: the default settings and no results. */
    constructor ()
      ensures Valid()
      ensures contentType == Script && script == "" && prompts == "" && niche == ""
      ensures referenceImageUrl == None && styleKeywords == DefaultStyleKeywords
      ensures aspectRatio == Wide && aiPromptInstruction == DefaultAiInstruction
      ensures generatedPrompts == [] && storyboard == [] && error == None
    {
      contentType, script, prompts, niche := Script, "", "", "";
      referenceImageUrl, styleKeywords := None, DefaultStyleKeywords;
      aspectRatio, aiPromptInstruction := Wide, DefaultAiInstruction;
      generatedPrompts, storyboard := [], [];
      isLoadingPrompts, error := false, None;
    }

    /** A full run with the current settings. `stage1` answers the
        prompt-generation request and `stage2(k)` the `k`-th image request.
        Returns the remote calls made, in order (no image request when the
        reference URL cannot be parsed), and (as `steps`) the storyboard
        right after each item was marked generating and right after it settled. */
    method HandleGenerate(stage1: PromptsReply, stage2: nat -> ImageReply)
      returns (calls: seq<ServiceCall>, ghost steps: seq<(seq<StoryboardImage>, seq<StoryboardImage>)>)
      requires Valid()
      modifies this`generatedPrompts, this`storyboard, this`isLoadingPrompts, this`error
      ensures Valid()
      ensures generatedPrompts == GeneratedPrompts(contentType, script, stage1)
      ensures var res := ResolvePrompts(contentType, script, prompts, stage1);
              res.Rejected? ==>
                && error == Some(res.message)
                && storyboard == []
                && calls == StageOneCalls(contentType, script, niche, aiPromptInstruction)
                && steps == []
      ensures var res := ResolvePrompts(contentType, script, prompts, stage1);
              res.Resolved? ==>
                var init := InitialStoryboard(res.prompts);
                var outs := Outcomes(res.prompts, referenceImageUrl, stage2);
                && error == None
                && storyboard == RunState(init, outs, |res.prompts|)
                && calls == StageOneCalls(contentType, script, niche, aiPromptInstruction)
                              + ImageCalls(res.prompts, styleKeywords, aspectRatio, referenceImageUrl)
                && RunSteps(steps, init, outs)
    {
      error := None;
      generatedPrompts := [];
      storyboard := [];
      steps := [];
      var promptsToProcess;
      promptsToProcess, calls := GetPromptsToProcess(stage1);
      if |promptsToProcess| == 0 {
        return;
      }
      var imageCalls;
      imageCalls, steps := GenerateImages(promptsToProcess, stage2);
      calls := calls + imageCalls;
      RunEndsAtRest(promptsToProcess, referenceImageUrl, stage2);
    }

    /** Step 1 of a run: the prompts to process, from the prompt-generation
        service for a script or from the prompt list; an empty result means the
        run stops with `error` set. Returns the remote calls made. */
    method GetPromptsToProcess(stage1: PromptsReply) returns (promptsToProcess: seq<string>, calls: seq<ServiceCall>)
      requires error == None && generatedPrompts == [] && !isLoadingPrompts
      modifies this`generatedPrompts, this`isLoadingPrompts, this`error
      ensures !isLoadingPrompts
      ensures generatedPrompts == GeneratedPrompts(contentType, script, stage1)
      ensures calls == StageOneCalls(contentType, script, niche, aiPromptInstruction)
      ensures var res := ResolvePrompts(contentType, script, prompts, stage1);
              && (res.Rejected? ==> error == Some(res.message) && promptsToProcess == [])
              && (res.Resolved? ==> error == None && promptsToProcess == res.prompts)
    {
      calls := [];
      promptsToProcess := [];
      ghost var res := ResolvePrompts(contentType, script, prompts, stage1);
      if contentType == Script {
        if Trim(script) == "" {
          assert res == Rejected(EmptyScriptMessage);
          error := Some(EmptyScriptMessage);
          return;
        }
        isLoadingPrompts := true;
        calls := [PromptCall(PromptRequestText(script, niche, aiPromptInstruction))];
        var resultPrompts := GeneratePromptsFromScript(stage1);
        if resultPrompts.Err? {
          assert res == Rejected(PromptGenerationErrorPrefix + MessageOf(resultPrompts.thrown));
          error := Some(PromptGenerationErrorPrefix + MessageOf(resultPrompts.thrown));
          isLoadingPrompts := false;
          return;
        }
        generatedPrompts := resultPrompts.value;
        promptsToProcess := resultPrompts.value;
        isLoadingPrompts := false;
        if |promptsToProcess| == 0 {
          assert res == Rejected(NoScriptPromptsMessage);
          error := Some(NoScriptPromptsMessage);
        } else {
          assert res == Resolved(promptsToProcess);
        }
      } else {
        if Trim(prompts) == "" {
          assert res == Rejected(EmptyPromptsMessage);
          error := Some(EmptyPromptsMessage);
          return;
        }
        promptsToProcess := ParsePromptList(prompts);
        if |promptsToProcess| == 0 {
          assert res == Rejected(NoValidPromptsMessage);
          error := Some(NoValidPromptsMessage);
        } else {
          assert res == Resolved(promptsToProcess);
        }
      }
    }

    /** Step 2 of a run: the storyboard is reset to one pending item per prompt
        and the items are then generated one after another, each being marked
        generating and then settled with the outcome of its own request. */
    method GenerateImages(promptsToProcess: seq<string>, stage2: nat -> ImageReply)
      returns (calls: seq<ServiceCall>, ghost steps: seq<(seq<StoryboardImage>, seq<StoryboardImage>)>)
      modifies this`storyboard
      ensures var init := InitialStoryboard(promptsToProcess);
              var outs := Outcomes(promptsToProcess, referenceImageUrl, stage2);
              && storyboard == RunState(init, outs, |promptsToProcess|)
              && calls == ImageCalls(promptsToProcess, styleKeywords, aspectRatio, referenceImageUrl)
              && RunSteps(steps, init, outs)
    {
      var initialStoryboard := InitialStoryboard(promptsToProcess);
      storyboard := initialStoryboard;
      ghost var outs := Outcomes(promptsToProcess, referenceImageUrl, stage2);
      calls, steps := [], [];
      assert RunState(initialStoryboard, outs, 0) == initialStoryboard;

      for i := 0 to |promptsToProcess|
        invariant storyboard == RunState(initialStoryboard, outs, i)
        invariant calls == ImageCalls(promptsToProcess[..i], styleKeywords, aspectRatio, referenceImageUrl)
        invariant StepsSoFar(steps, initialStoryboard, outs, i)
      {
        RunStepRecorded(initialStoryboard, outs, steps, i);
        storyboard := storyboard[i := MarkGenerating(storyboard[i])];
        ghost var marked := storyboard;
        var sent, outcome := GenerateImageFromPrompt(promptsToProcess[i], styleKeywords, aspectRatio,
                                                     referenceImageUrl, stage2(i));
        ImageCallsAppend(promptsToProcess, i, styleKeywords, aspectRatio, referenceImageUrl);
        calls := calls + SentCalls(sent);
        assert outcome == outs[i];
        match outcome {
          case Ok(imageUrl) =>
            storyboard := storyboard[i := storyboard[i].(status := Success, imageUrl := Some(imageUrl))];
          case Err(thrown) =>
            storyboard := storyboard[i := storyboard[i].(status := Error, errorMessage := Some(MessageOf(thrown)))];
        }
        assert storyboard == marked[i := Settle(marked[i], outs[i])];
        steps := steps + [(marked, storyboard)];
      }
      assert promptsToProcess[..|promptsToProcess|] == promptsToProcess;
    }

    /** Retries item `index` with the current settings; `reply` answers its image
        request. Anything but a failed item in range is left alone. Returns the
        remote calls made and (as `marked`) the storyboard while the request is
        outstanding. */
    method HandleRetryImage(index: int, reply: ImageReply)
      returns (calls: seq<ServiceCall>, ghost marked: seq<StoryboardImage>)
      requires Valid()
      modifies this`storyboard
      ensures Valid()
      ensures !(0 <= index < |old(storyboard)|) || old(storyboard)[index].status != Error ==>
                storyboard == old(storyboard) && marked == old(storyboard) && calls == []
      ensures 0 <= index < |old(storyboard)| && old(storyboard)[index].status == Error ==>
                var item := old(storyboard)[index];
                && marked == old(storyboard)[index := MarkRetrying(item)]
                && AllConsistent(marked)
                && storyboard == old(storyboard)[index := Settle(MarkRetrying(item), ImageCallResult(referenceImageUrl, reply))]
                && calls == ImageRequest(item.prompt, styleKeywords, aspectRatio, referenceImageUrl)
    {
      marked := storyboard;
      if !(0 <= index < |storyboard|) || storyboard[index].status != Error {
        return [], marked;
      }
      var imageToRetry := storyboard[index];
      storyboard := storyboard[index := MarkRetrying(storyboard[index])];
      marked := storyboard;
      var sent, outcome := GenerateImageFromPrompt(imageToRetry.prompt, styleKeywords, aspectRatio,
                                                   referenceImageUrl, reply);
      calls := SentCalls(sent);
      match outcome {
        case Ok(imageUrl) =>
          storyboard := storyboard[index := storyboard[index].(status := Success, imageUrl := Some(imageUrl))];
        case Err(thrown) =>
          storyboard := storyboard[index := storyboard[index].(status := Error, errorMessage := Some(MessageOf(thrown)))];
      }
    }
  }
}
