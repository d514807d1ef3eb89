/** Shared data model of the storyboard application: the aspect ratios and
    content sources a user can choose, and the per-prompt storyboard record. */
module Types {

  datatype Option<+T> = None | Some(value: T)

  /** The five aspect ratios an image can be requested in. */
  datatype AspectRatio = Wide | Tall | Landscape | Portrait | Square
  {
    /** The ratio as it is written into requests and offered to the user. */
    function Text(): string
    {
      match this
      case Wide => "16:9"
      case Tall => "9:16"
      case Landscape => "4:3"
      case Portrait => "3:4"
      case Square => "1:1"
    }
  }

  /** The ratios offered for selection, in the order they are displayed. */
  const AspectRatioOptions: seq<AspectRatio> := [Wide, Tall, Landscape, Portrait, Square]

  /** Where the prompts of a run come from: a free-text script that is sent to
      the prompt-generation service, or a newline-separated prompt list. */
  datatype ContentType = Script | Prompts

  datatype Status = Pending | Generating | Success | Error

  /** One prompt of a storyboard with the state of its image. */
  datatype StoryboardImage = StoryboardImage(
    prompt: string,
    imageUrl: Option<string>,
    status: Status,
    errorMessage: Option<string>)

  /** An image URL is present exactly on success and an error message exactly on error. */
  predicate Consistent(img: StoryboardImage)
  {
    && (img.imageUrl.Some? <==> img.status == Success)
    && (img.errorMessage.Some? <==> img.status == Error)
  }

  /** The item's generation attempt has finished. */
  predicate Settled(img: StoryboardImage)
  {
    img.status == Success || img.status == Error
  }

  predicate AllConsistent(s: seq<StoryboardImage>)
  {
    forall k :: 0 <= k < |s| ==> Consistent(s[k])
  }

  /** The option list holds every aspect ratio exactly once, and their texts are
      pairwise distinct, so a ratio is determined by its text. */
  lemma AspectRatioOptionsComplete(r: AspectRatio)
    ensures r in AspectRatioOptions
    ensures forall i, j :: 0 <= i < j < |AspectRatioOptions| ==> AspectRatioOptions[i] != AspectRatioOptions[j]
    ensures forall q: AspectRatio :: q.Text() == r.Text() ==> q == r
  {
  }
}
