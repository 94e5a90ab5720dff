/**
 * The description string of the advanced node, read back. Every description
 * the node produces is either a heading, ": " and a word naming what was
 * forwarded ("image1...", "image2..." or "fallback..."), or a text without a
 * colon (the forced-but-bypassed descriptions, and the empty string of an
 * unknown mode). Reading the word after the heading gives the input the
 * description claims was forwarded; the lemmas here prove that the claim is
 * always true.
 */
module SelectionInfo {
  import opened ImageSelector

  /** What a description says was forwarded. */
  datatype Slot = FirstInput | SecondInput | Placeholder

  /** The same claim with the two inputs swapped. */
  function Mirror(s: Slot): (m: Slot)
    ensures m == Placeholder <==> s == Placeholder
    ensures m != s || s == Placeholder
  {
    match s
    case FirstInput => SecondInput
    case SecondInput => FirstInput
    case Placeholder => Placeholder
  }

  /** The heading of `info` ends at position `k`: `info` reads
      "<heading>: <word>" with a colon-free heading of length `k`. */
  ghost predicate HeadingEndsAt(info: string, k: nat)
  {
    k + 2 <= |info| && info[k] == ':' && info[k + 1] == ' ' && ':' !in info[..k]
  }

  /** The input a word names: one that starts with "image1" or "image2" names
      that input; any other word names the placeholder. The prefix is compared
      character by character: on the long description literals the solver
      fails to decide a slice comparison such as `word[..5] == "image"`. */
  function Named(word: string): Slot
  {
    if |word| >= 6 && word[0] == 'i' && word[1] == 'm' && word[2] == 'a' && word[3] == 'g' && word[4] == 'e' then
      if word[5] == '1' then FirstInput else if word[5] == '2' then SecondInput else Placeholder
    else
      Placeholder
  }

  /** What a description says was forwarded: what the word after its heading
      names, or the placeholder when it has no heading. */
  ghost function Reported(info: string): Slot
  {
    if exists k: nat :: HeadingEndsAt(info, k) then
      var k: nat :| HeadingEndsAt(info, k);
      Named(info[k + 2..])
    else
      Placeholder
  }

  /** The description of `r` says what was forwarded: the placeholder exactly
      when the placeholder was forwarded, and an input only when that input is
      present and was forwarded. */
  ghost predicate Truthful<T>(image1: Option<T>, image2: Option<T>, r: Outcome<T>)
  {
    && (Reported(r.info) == Placeholder <==> r.image.Fallback?)
    && (Reported(r.info) == FirstInput ==> image1.Some? && r.image == Chosen(image1.value))
    && (Reported(r.info) == SecondInput ==> image2.Some? && r.image == Chosen(image2.value))
  }

  /** A heading is colon-free, so it ends at the first colon: a description
      has at most one. */
  lemma HeadingUnique(info: string, j: nat, k: nat)
    requires HeadingEndsAt(info, j) && HeadingEndsAt(info, k)
    ensures j == k
  {
  }

  /** A colon-free heading, ": " and a word make a description that says what
      the word names. */
  lemma DescribedAs(info: string, heading: string, word: string)
    requires ':' !in heading && info == heading + ": " + word
    ensures Reported(info) == Named(word)
  {
    assert info[..|heading|] == heading;
    assert HeadingEndsAt(info, |heading|);
    var k: nat :| HeadingEndsAt(info, k) && Reported(info) == Named(info[k + 2..]);
    HeadingUnique(info, k, |heading|);
    assert info[k + 2..] == word;
  }

  /** A description without a colon has no heading and says the placeholder
      was forwarded. */
  lemma Unlabelled(info: string)
    requires ':' !in info
    ensures Reported(info) == Placeholder
  {
  }

  // What each word of a description names. A lemma per word keeps the
  // evaluation of every string literal in a proof context of its own.

  lemma NamedImage1()
    ensures Named("image1") == FirstInput
  {
  }

  lemma NamedImage2()
    ensures Named("image2") == SecondInput
  {
  }

  lemma NamedImage1Only()
    ensures Named("image1 (image2 bypassed)") == FirstInput
  {
  }

  lemma NamedImage2Only()
    ensures Named("image2 (image1 bypassed)") == SecondInput
  {
  }

  lemma NamedBoth()
    ensures Named("image1 (both available, image1 priority)") == FirstInput
  {
  }

  lemma NamedFallback()
    ensures Named("fallback (both bypassed)") == Placeholder
  {
  }

  /** The longest description, split at its heading. */
  lemma AutoBothSplit(info: string)
    requires info == "Auto selected: image1 (both available, image1 priority)"
    ensures info == "Auto selected" + ": " + "image1 (both available, image1 priority)"
  {
  }

  // What each description of the advanced node says was forwarded.

  lemma ForcedImage1Read(info: string)
    requires info == "Forced selection: image1"
    ensures Reported(info) == FirstInput
  {
    NamedImage1();
    DescribedAs(info, "Forced selection", "image1");
  }

  lemma ForcedImage2Read(info: string)
    requires info == "Forced selection: image2"
    ensures Reported(info) == SecondInput
  {
    NamedImage2();
    DescribedAs(info, "Forced selection", "image2");
  }

  lemma AutoImage1Read(info: string)
    requires info == "Auto selected: image1 (image2 bypassed)"
    ensures Reported(info) == FirstInput
  {
    NamedImage1Only();
    DescribedAs(info, "Auto selected", "image1 (image2 bypassed)");
  }

  lemma AutoImage2Read(info: string)
    requires info == "Auto selected: image2 (image1 bypassed)"
    ensures Reported(info) == SecondInput
  {
    NamedImage2Only();
    DescribedAs(info, "Auto selected", "image2 (image1 bypassed)");
  }

  lemma AutoBothRead(info: string)
    requires info == "Auto selected: image1 (both available, image1 priority)"
    ensures Reported(info) == FirstInput
  {
    AutoBothSplit(info);
    NamedBoth();
    DescribedAs(info, "Auto selected", "image1 (both available, image1 priority)");
  }

  lemma AutoFallbackRead(info: string)
    requires info == "Auto selected: fallback (both bypassed)"
    ensures Reported(info) == Placeholder
  {
    NamedFallback();
    DescribedAs(info, "Auto selected", "fallback (both bypassed)");
  }

  lemma PriorityImage1Read(info: string)
    requires info == "Priority selection: image1"
    ensures Reported(info) == FirstInput
  {
    NamedImage1();
    DescribedAs(info, "Priority selection", "image1");
  }

  lemma PriorityImage2Read(info: string)
    requires info == "Priority selection: image2"
    ensures Reported(info) == SecondInput
  {
    NamedImage2();
    DescribedAs(info, "Priority selection", "image2");
  }

  lemma PriorityImage1OnlyRead(info: string)
    requires info == "Priority selection: image1 (image2 bypassed)"
    ensures Reported(info) == FirstInput
  {
    NamedImage1Only();
    DescribedAs(info, "Priority selection", "image1 (image2 bypassed)");
  }

  lemma PriorityImage2OnlyRead(info: string)
    requires info == "Priority selection: image2 (image1 bypassed)"
    ensures Reported(info) == SecondInput
  {
    NamedImage2Only();
    DescribedAs(info, "Priority selection", "image2 (image1 bypassed)");
  }

  lemma PriorityFallbackRead(info: string)
    requires info == "Priority selection: fallback (both bypassed)"
    ensures Reported(info) == Placeholder
  {
    NamedFallback();
    DescribedAs(info, "Priority selection", "fallback (both bypassed)");
  }

  lemma ForcedImage1BypassedRead(info: string)
    requires info == "Forced image1 but bypassed, using fallback"
    ensures Reported(info) == Placeholder
  {
    Unlabelled(info);
  }

  lemma ForcedImage2BypassedRead(info: string)
    requires info == "Forced image2 but bypassed, using fallback"
    ensures Reported(info) == Placeholder
  {
    Unlabelled(info);
  }

  /** The descriptions of the forced modes read truthfully. */
  lemma ForcedDescription<T>(image1: Option<T>, image2: Option<T>, selectionMode: string, width: nat, height: nat)
    requires selectionMode == FORCE_IMAGE1 || selectionMode == FORCE_IMAGE2
    ensures Truthful(image1, image2, SelectImageAdvanced(image1, image2, selectionMode, width, height))
  {
    var info := SelectImageAdvanced(image1, image2, selectionMode, width, height).info;
    if selectionMode == FORCE_IMAGE1 {
      if image1.Some? {
        ForcedImage1Read(info);
      } else {
        ForcedImage1BypassedRead(info);
      }
    } else {
      if image2.Some? {
        ForcedImage2Read(info);
      } else {
        ForcedImage2BypassedRead(info);
      }
    }
  }

  /** The descriptions of "auto_select" read truthfully. */
  lemma AutoDescription<T>(image1: Option<T>, image2: Option<T>, selectionMode: string, width: nat, height: nat)
    requires selectionMode == AUTO_SELECT
    ensures Truthful(image1, image2, SelectImageAdvanced(image1, image2, selectionMode, width, height))
  {
    var info := SelectImageAdvanced(image1, image2, selectionMode, width, height).info;
    if image1.Some? && image2.None? {
      AutoImage1Read(info);
    } else if image1.None? && image2.Some? {
      AutoImage2Read(info);
    } else if image1.Some? && image2.Some? {
      AutoBothRead(info);
    } else {
      AutoFallbackRead(info);
    }
  }

  /** The descriptions of "image1_priority" read truthfully. */
  lemma Image1PriorityDescription<T>(image1: Option<T>, image2: Option<T>, selectionMode: string, width: nat, height: nat)
    requires selectionMode == IMAGE1_PRIORITY
    ensures Truthful(image1, image2, SelectImageAdvanced(image1, image2, selectionMode, width, height))
  {
    var info := SelectImageAdvanced(image1, image2, selectionMode, width, height).info;
    if image1.Some? {
      PriorityImage1Read(info);
    } else if image2.Some? {
      PriorityImage2OnlyRead(info);
    } else {
      PriorityFallbackRead(info);
    }
  }

  /** The descriptions of "image2_priority" read truthfully. */
  lemma Image2PriorityDescription<T>(image1: Option<T>, image2: Option<T>, selectionMode: string, width: nat, height: nat)
    requires selectionMode == IMAGE2_PRIORITY
    ensures Truthful(image1, image2, SelectImageAdvanced(image1, image2, selectionMode, width, height))
  {
    var info := SelectImageAdvanced(image1, image2, selectionMode, width, height).info;
    if image2.Some? {
      PriorityImage2Read(info);
    } else if image1.Some? {
      PriorityImage1OnlyRead(info);
    } else {
      PriorityFallbackRead(info);
    }
  }

  /** The description never misreports, whatever the inputs and the mode string. */
  lemma DescriptionMatchesChoice<T>(image1: Option<T>, image2: Option<T>, selectionMode: string,
                                    width: nat, height: nat)
    ensures Truthful(image1, image2, SelectImageAdvanced(image1, image2, selectionMode, width, height))
  {
    if selectionMode == FORCE_IMAGE1 || selectionMode == FORCE_IMAGE2 {
      ForcedDescription(image1, image2, selectionMode, width, height);
    } else if selectionMode == AUTO_SELECT {
      AutoDescription(image1, image2, selectionMode, width, height);
    } else if selectionMode == IMAGE1_PRIORITY {
      Image1PriorityDescription(image1, image2, selectionMode, width, height);
    } else if selectionMode == IMAGE2_PRIORITY {
      Image2PriorityDescription(image1, image2, selectionMode, width, height);
    } else {
      Unlabelled(SelectImageAdvanced(image1, image2, selectionMode, width, height).info);
    }
  }

  /** Swapping the inputs and the priority swaps what the description says
      was forwarded; the same holds for the two forced modes. */
  lemma MirroredDescriptions<T>(a: Option<T>, b: Option<T>, width: nat, height: nat)
    ensures Reported(SelectImageAdvanced(b, a, IMAGE2_PRIORITY, width, height).info)
            == Mirror(Reported(SelectImageAdvanced(a, b, IMAGE1_PRIORITY, width, height).info))
    ensures Reported(SelectImageAdvanced(b, a, FORCE_IMAGE2, width, height).info)
            == Mirror(Reported(SelectImageAdvanced(a, b, FORCE_IMAGE1, width, height).info))
  {
    var first := SelectImageAdvanced(a, b, IMAGE1_PRIORITY, width, height).info;
    var second := SelectImageAdvanced(b, a, IMAGE2_PRIORITY, width, height).info;
    if a.Some? {
      PriorityImage1Read(first);
      PriorityImage2Read(second);
    } else if b.Some? {
      PriorityImage2OnlyRead(first);
      PriorityImage1OnlyRead(second);
    } else {
      PriorityFallbackRead(first);
      PriorityFallbackRead(second);
    }
    var forced1 := SelectImageAdvanced(a, b, FORCE_IMAGE1, width, height).info;
    var forced2 := SelectImageAdvanced(b, a, FORCE_IMAGE2, width, height).info;
    if a.Some? {
      ForcedImage1Read(forced1);
      ForcedImage2Read(forced2);
    } else {
      ForcedImage1BypassedRead(forced1);
      ForcedImage2BypassedRead(forced2);
    }
  }
}
