/** `inputProcessor.ts`: the user's input is macro-expanded and run through `processUserInput`;
    an image list is either announced by a marker appended to the input (the preset path,
    where a listener rewrites the marked message) or turned into content parts at once
    (the raw path). */
module InputProcessor {
  import opened Wrappers
  import opened Strings
  import opened GenTypes
  import opened GenUtils

  /** The host services the input steps use: macro substitution (`substituteParams`), the
      `send_if_empty` setting, the user-input regex scripts, image encoding and the
      `inline_image_quality` setting */
  datatype InputHost = InputHost(
    macro: string -> string, sendIfEmpty: string, regex: string -> string,
    image: ImageHost, qualitySetting: string)

  /** `processInitialUserInput`: macros first, then `processUserInput` (whose `|| ''` adds
      nothing, the result already being a string) */
  function ProcessInitialUserInput(input: string, host: InputHost): (r: string)
    ensures host.macro(input) != "" ==> r == host.regex(host.macro(input))
    ensures host.macro(input) == "" ==> r == host.regex(Trim(host.sendIfEmpty))
  {
    ProcessUserInput(host.macro(input), host.sendIfEmpty, host.regex)
  }

  /** The `send_if_empty` setting matters only when the input expands to nothing */
  lemma {:induction false} SendIfEmptyOnlyForEmptyInput(input: string, host: InputHost, sendIfEmpty: string)
    requires host.macro(input) != ""
    ensures ProcessInitialUserInput(input, host.(sendIfEmpty := sendIfEmpty)) == ProcessInitialUserInput(input, host)
  {
  }

  /** With a blank `send_if_empty`, an input that expands to nothing is sent as whatever
      the regex scripts make of the empty text */
  lemma {:induction false} BlankSettingGivesEmptyText(input: string, host: InputHost)
    requires host.macro(input) == "" && Trim(host.sendIfEmpty) == ""
    ensures ProcessInitialUserInput(input, host) == host.regex("")
  {
  }

  /** Whether the image parameter is a non-empty array (`Array.isArray(image) && image.length > 0`) */
  predicate HasImageArray(image: ImageInput) {
    image.ImageList? && |image.imgs| > 0
  }

  /** `processUserInputWithImages`: the processed text, the marker setup on the preset path
      and the content parts on the raw path; a single image or an empty array is left to
      the later steps */
  method ProcessUserInputWithImages(input: string, usePreset: bool, image: ImageInput, host: InputHost)
    returns (processedUserInput: string, setup: ImageArraySetup?, processedImageArray: Option<seq<ContentPart>>)
    ensures HasImageArray(image) && usePreset ==>
              setup != null && fresh(setup) && setup.images == image.imgs
              && processedUserInput == setup.userInputWithMarker == ProcessInitialUserInput(input, host) + ImageMarker
              && processedImageArray.None?
              && setup.promise == Pending && setup.listening
    ensures HasImageArray(image) && !usePreset ==>
              setup == null && processedUserInput == ProcessInitialUserInput(input, host)
              && processedImageArray == Some(ProcessImageArrayDirectly(processedUserInput, image.imgs, host.image, host.qualitySetting))
    ensures !HasImageArray(image) ==>
              setup == null && processedUserInput == ProcessInitialUserInput(input, host) && processedImageArray.None?
  {
    processedUserInput := ProcessInitialUserInput(input, host);
    setup := null;
    processedImageArray := None;
    if image.ImageList? && |image.imgs| > 0 {
      if usePreset {
        setup := new ImageArraySetup(processedUserInput, image.imgs);
        processedUserInput := setup.userInputWithMarker;
      } else {
        processedImageArray := Some(ProcessImageArrayDirectly(processedUserInput, image.imgs, host.image, host.qualitySetting));
      }
    }
  }

  /** The two paths agree: once the listener rewrites the user message carrying the marked
      input, its parts are the ones the raw path builds directly (when the processed input
      has no underscore, so the marker cannot start inside it) */
  lemma {:induction false} MarkerPathMatchesDirectPath(processed: string, imgs: seq<ImageSource>, host: InputHost)
    requires '_' !in processed
    ensures Rewritten(WireMessage("user", Plain(processed + ImageMarker)), imgs, host.image, ImageQuality(host.qualitySetting)).content.parts
            == ProcessImageArrayDirectly(processed, imgs, host.image, host.qualitySetting)
  {
    MarkerRemovalRestoresInput(processed);
  }
}
