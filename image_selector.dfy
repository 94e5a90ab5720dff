/**
 * The two image-selector nodes of the ComfyUI "Image Bypasser" plugin.
 *
 * Each node receives two optional image inputs (an input whose upstream node is
 * bypassed arrives as `None`) and forwards one of them. When neither is
 * present it forwards a synthesised all-black placeholder instead. The images
 * themselves are never inspected, so an image is an opaque type parameter `T`.
 */
module ImageSelector {

  datatype Option<+T> = None | Some(value: T)

  /** What a node forwards: one of its inputs, unchanged, or an all-zero
      placeholder tensor of shape (1, height, width, 3). */
  datatype Output<+T> = Chosen(image: T) | Fallback(height: nat, width: nat)

  /** The advanced node returns the forwarded image and a description of the choice. */
  datatype Outcome<+T> = Outcome(image: Output<T>, info: string)

  const IMAGE1_PRIORITY := "image1_priority"
  const IMAGE2_PRIORITY := "image2_priority"
  const AUTO_SELECT := "auto_select"
  const FORCE_IMAGE1 := "force_image1"
  const FORCE_IMAGE2 := "force_image2"

  /** The choices the host offers for the advanced node's `selection_mode`. */
  const ADVANCED_MODES: set<string> := {AUTO_SELECT, FORCE_IMAGE1, FORCE_IMAGE2, IMAGE1_PRIORITY, IMAGE2_PRIORITY}

  /** Edge length of the basic node's placeholder. */
  const BASIC_FALLBACK_SIZE: nat := 512

  /** The shape (batch, height, width, channels) of a placeholder tensor. */
  function FallbackShape<T>(o: Output<T>): seq<nat>
    requires o.Fallback?
  {
    [1, o.height, o.width, 3]
  }

  // ---------------------------------------------------------------------------
  // ImageSelector.select_image
  // ---------------------------------------------------------------------------

  /** The basic node: a present input always wins over an absent one; when both
      are present `fallback_mode` decides, and any string other than
      "image1_priority" picks image2; when neither is present a black
      512x512 placeholder is forwarded. */
  function SelectImage<T>(image1: Option<T> := None, image2: Option<T> := None,
                          fallbackMode: string := IMAGE1_PRIORITY): (r: Output<T>)
    // the placeholder appears exactly when there is nothing to forward
    ensures r.Fallback? <==> image1.None? && image2.None?
    ensures r.Fallback? ==> FallbackShape(r) == [1, BASIC_FALLBACK_SIZE, BASIC_FALLBACK_SIZE, 3]
    // a forwarded image is always one of the inputs
    ensures r.Chosen? ==> image1 == Some(r.image) || image2 == Some(r.image)
    // image2 is forwarded over a present image1 only when the mode asks for it
    ensures image1.Some? && r != Chosen(image1.value) ==> fallbackMode != IMAGE1_PRIORITY
  {
    if image1.Some? && image2.None? then
      Chosen(image1.value)
    else if image1.None? && image2.Some? then
      Chosen(image2.value)
    else if image1.Some? && image2.Some? then
      if fallbackMode == IMAGE1_PRIORITY then Chosen(image1.value) else Chosen(image2.value)
    else
      Fallback(BASIC_FALLBACK_SIZE, BASIC_FALLBACK_SIZE)
  }

  /** Presence overrides priority: a single present input is forwarded whatever the mode. */
  lemma SelectImageSinglePresent<T>(image1: Option<T>, image2: Option<T>, fallbackMode: string)
    requires image1.Some? != image2.Some?
    ensures SelectImage(image1, image2, fallbackMode)
            == Chosen(if image1.Some? then image1.value else image2.value)
  {
  }

  /** With both inputs present, image1 is forwarded in "image1_priority" mode
      and image2 under every other mode string. */
  lemma SelectImageBothPresent<T>(a: T, b: T, fallbackMode: string)
    ensures SelectImage(Some(a), Some(b), fallbackMode)
            == Chosen(if fallbackMode == IMAGE1_PRIORITY then a else b)
  {
  }

  /** The defaults (no inputs, "image1_priority") give the 512x512 placeholder. */
  lemma SelectImageDefaults<T>()
    ensures SelectImage<T>() == Fallback(512, 512)
  {
  }

  // ---------------------------------------------------------------------------
  // ImageSelectorAdvanced.select_image_advanced
  // ---------------------------------------------------------------------------

  /** The advanced node. "force_imageN" forwards input N or the placeholder;
      "auto_select" forwards whichever input is present, image1 if both;
      "imageN_priority" prefers input N and falls back to the other one.
      A mode string outside these five falls through every branch and yields
      the placeholder with an empty description. */
  function SelectImageAdvanced<T>(image1: Option<T> := None, image2: Option<T> := None,
                                  selectionMode: string := AUTO_SELECT,
                                  fallbackWidth: nat := 512, fallbackHeight: nat := 512): (r: Outcome<T>)
    // the placeholder has the requested size, height before width
    ensures r.image.Fallback? ==> FallbackShape(r.image) == [1, fallbackHeight, fallbackWidth, 3]
    // a forwarded image is always one of the inputs
    ensures r.image.Chosen? ==> image1 == Some(r.image.image) || image2 == Some(r.image.image)
    // auto_select and the priority modes fall back only when no input is present
    ensures selectionMode in {AUTO_SELECT, IMAGE1_PRIORITY, IMAGE2_PRIORITY} ==>
              (r.image.Fallback? <==> image1.None? && image2.None?)
    // a forced mode forwards the forced input when it is present, else the placeholder
    ensures selectionMode == FORCE_IMAGE1 ==>
              r.image == (if image1.Some? then Chosen(image1.value) else Fallback(fallbackHeight, fallbackWidth))
    ensures selectionMode == FORCE_IMAGE2 ==>
              r.image == (if image2.Some? then Chosen(image2.value) else Fallback(fallbackHeight, fallbackWidth))
    // an unknown mode always yields the placeholder and no description
    ensures selectionMode !in ADVANCED_MODES ==> r.image.Fallback? && r.info == ""
  {
    var fallback := Fallback(fallbackHeight, fallbackWidth);
    if selectionMode == FORCE_IMAGE1 then
      if image1.Some? then Outcome(Chosen(image1.value), "Forced selection: image1")
      else Outcome(fallback, "Forced image1 but bypassed, using fallback")
    else if selectionMode == FORCE_IMAGE2 then
      if image2.Some? then Outcome(Chosen(image2.value), "Forced selection: image2")
      else Outcome(fallback, "Forced image2 but bypassed, using fallback")
    else if selectionMode == AUTO_SELECT then
      if image1.Some? && image2.None? then
        Outcome(Chosen(image1.value), "Auto selected: image1 (image2 bypassed)")
      else if image1.None? && image2.Some? then
        Outcome(Chosen(image2.value), "Auto selected: image2 (image1 bypassed)")
      else if image1.Some? && image2.Some? then
        Outcome(Chosen(image1.value), "Auto selected: image1 (both available, image1 priority)")
      else
        Outcome(fallback, "Auto selected: fallback (both bypassed)")
    else if selectionMode == IMAGE1_PRIORITY then
      if image1.Some? then Outcome(Chosen(image1.value), "Priority selection: image1")
      else if image2.Some? then Outcome(Chosen(image2.value), "Priority selection: image2 (image1 bypassed)")
      else Outcome(fallback, "Priority selection: fallback (both bypassed)")
    else if selectionMode == IMAGE2_PRIORITY then
      if image2.Some? then Outcome(Chosen(image2.value), "Priority selection: image2")
      else if image1.Some? then Outcome(Chosen(image1.value), "Priority selection: image1 (image2 bypassed)")
      else Outcome(fallback, "Priority selection: fallback (both bypassed)")
    else
      Outcome(fallback, "")
  }

  /** "force_image1" forwards image1 whenever it is present, whatever image2 is,
      and the placeholder otherwise, even when image2 is present. */
  lemma ForceImage1<T>(image1: Option<T>, image2: Option<T>, width: nat, height: nat)
    ensures SelectImageAdvanced(image1, image2, FORCE_IMAGE1, width, height)
            == if image1.Some? then Outcome(Chosen(image1.value), "Forced selection: image1")
               else Outcome(Fallback(height, width), "Forced image1 but bypassed, using fallback")
  {
  }

  /** "force_image2" is the mirror image of "force_image1". */
  lemma ForceImage2<T>(image1: Option<T>, image2: Option<T>, width: nat, height: nat)
    ensures SelectImageAdvanced(image1, image2, FORCE_IMAGE2, width, height)
            == if image2.Some? then Outcome(Chosen(image2.value), "Forced selection: image2")
               else Outcome(Fallback(height, width), "Forced image2 but bypassed, using fallback")
  {
  }

  /** "auto_select" forwards whichever input is present, image1 when both
      are, and the placeholder when neither is. */
  lemma AutoSelect<T>(image1: Option<T>, image2: Option<T>, width: nat, height: nat)
    ensures var r := SelectImageAdvanced(image1, image2, AUTO_SELECT, width, height);
            r == match (image1, image2)
                 case (Some(a), None) => Outcome(Chosen(a), "Auto selected: image1 (image2 bypassed)")
                 case (None, Some(b)) => Outcome(Chosen(b), "Auto selected: image2 (image1 bypassed)")
                 case (Some(a), Some(_)) => Outcome(Chosen(a), "Auto selected: image1 (both available, image1 priority)")
                 case (None, None) => Outcome(Fallback(height, width), "Auto selected: fallback (both bypassed)")
  {
  }

  /** "image1_priority" forwards image1 when present, else image2 when
      present, else the placeholder. */
  lemma Image1Priority<T>(image1: Option<T>, image2: Option<T>, width: nat, height: nat)
    ensures var r := SelectImageAdvanced(image1, image2, IMAGE1_PRIORITY, width, height);
            r == match (image1, image2)
                 case (Some(a), _) => Outcome(Chosen(a), "Priority selection: image1")
                 case (None, Some(b)) => Outcome(Chosen(b), "Priority selection: image2 (image1 bypassed)")
                 case (None, None) => Outcome(Fallback(height, width), "Priority selection: fallback (both bypassed)")
  {
  }

  /** "image2_priority" forwards image2 when present, else image1 when
      present, else the placeholder. */
  lemma Image2Priority<T>(image1: Option<T>, image2: Option<T>, width: nat, height: nat)
    ensures var r := SelectImageAdvanced(image1, image2, IMAGE2_PRIORITY, width, height);
            r == match (image1, image2)
                 case (_, Some(b)) => Outcome(Chosen(b), "Priority selection: image2")
                 case (Some(a), None) => Outcome(Chosen(a), "Priority selection: image1 (image2 bypassed)")
                 case (None, None) => Outcome(Fallback(height, width), "Priority selection: fallback (both bypassed)")
  {
  }

  /** A mode string outside the five choices matches no branch: the
      placeholder is forwarded with an empty description even when both
      inputs are present. */
  lemma UnknownMode<T>(image1: Option<T>, image2: Option<T>, selectionMode: string, width: nat, height: nat)
    requires selectionMode !in ADVANCED_MODES
    ensures SelectImageAdvanced(image1, image2, selectionMode, width, height) == Outcome(Fallback(height, width), "")
  {
  }

  /** Swapping the inputs and the priority gives the same image:
      "image1_priority" on (a, b) forwards what "image2_priority" forwards on (b, a),
      and likewise for the two forced modes. */
  lemma PriorityModesMirror<T>(a: Option<T>, b: Option<T>, width: nat, height: nat)
    ensures SelectImageAdvanced(a, b, IMAGE1_PRIORITY, width, height).image
            == SelectImageAdvanced(b, a, IMAGE2_PRIORITY, width, height).image
    ensures SelectImageAdvanced(a, b, FORCE_IMAGE1, width, height).image
            == SelectImageAdvanced(b, a, FORCE_IMAGE2, width, height).image
  {
  }

  /** The basic node is the advanced node at 512x512: its two modes behave as
      the advanced priority modes, and "auto_select" as "image1_priority". */
  lemma BasicIsAdvancedPriority<T>(image1: Option<T>, image2: Option<T>)
    ensures SelectImage(image1, image2, IMAGE1_PRIORITY)
            == SelectImageAdvanced(image1, image2, IMAGE1_PRIORITY, 512, 512).image
            == SelectImageAdvanced(image1, image2, AUTO_SELECT, 512, 512).image
    ensures SelectImage(image1, image2, IMAGE2_PRIORITY)
            == SelectImageAdvanced(image1, image2, IMAGE2_PRIORITY, 512, 512).image
  {
  }

  /** Neither input, "force_image1", 128 wide and 256 high: a (1, 256, 128, 3)
      placeholder with the forced-but-bypassed description. */
  lemma ForcedBypassedScenario<T>()
    ensures var r := SelectImageAdvanced<T>(None, None, FORCE_IMAGE1, 128, 256);
            FallbackShape(r.image) == [1, 256, 128, 3]
            && r.info == "Forced image1 but bypassed, using fallback"
  {
  }
}
