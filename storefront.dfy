/**
 * The two index updates of the `Home` page: the product-image carousel, whose
 * arrows step through the images with wrap-around, and the FAQ accordion, which
 * keeps at most one answer open.
 */
module Storefront {
  import opened Wrappers

  /** The captions of the product images, in carousel order. */
  const ProductImages: seq<string> := [
    "Front View", "Side Profile", "Adjustable Fit", "360 Medical-Grade LEDs",
    "Premium Packaging", "Lightweight Design", "Spa Experience", "What's Included",
    "6 Treatment Modes", "4 Light Wavelengths", "Smart Controller", "Specifications"
  ]

  /** The FAQ questions, in page order. */
  const Faqs: seq<string> := [
    "How long until I see results?", "Is it safe for my eyes?",
    "What are the 6 treatment modes?", "What if it doesn't work for me?",
    "How do I use it?", "How long does shipping take?",
    "Can I use it with my skincare products?", "What's included in the box?",
    "How do I contact support?", "How do I track my order?",
    "What is your return policy?"
  ]

  /** The left arrow: one image back, from the first image to the last. */
  function PrevImage(i: nat): (j: nat)
    requires i < |ProductImages|
    ensures j < |ProductImages|
    ensures j == (i + |ProductImages| - 1) % |ProductImages|
  {
    if i == 0 then |ProductImages| - 1 else i - 1
  }

  /** The right arrow: one image forward, from the last image to the first. */
  function NextImage(i: nat): (j: nat)
    requires i < |ProductImages|
    ensures j < |ProductImages|
    ensures j == (i + 1) % |ProductImages|
  {
    if i == |ProductImages| - 1 then 0 else i + 1
  }

  /** The two arrows undo each other. */
  lemma ArrowsUndoEachOther(i: nat)
    requires i < |ProductImages|
    ensures NextImage(PrevImage(i)) == i
    ensures PrevImage(NextImage(i)) == i
  {
  }

  /** The image reached after `k` presses of the right arrow. */
  function Advance(i: nat, k: nat): (j: nat)
    requires i < |ProductImages|
    ensures j < |ProductImages|
  {
    if k == 0 then i else NextImage(Advance(i, k - 1))
  }

  /** `k` presses of the right arrow move `k` images on, modulo the image count. */
  lemma {:induction false} AdvanceIsModular(i: nat, k: nat)
    requires i < |ProductImages|
    ensures Advance(i, k) == (i + k) % |ProductImages|
  {
    if k > 0 {
      AdvanceIsModular(i, k - 1);
      var n := |ProductImages|;
      var p := (i + k - 1) % n;
      assert (p + 1) % n == (i + k) % n by {
        assert i + k - 1 == (i + k - 1) / n * n + p;
        assert i + k == (i + k - 1) / n * n + (p + 1);
      }
    }
  }

  /** Pressing the right arrow once per image brings the carousel back round. */
  lemma FullCycle(i: nat)
    requires i < |ProductImages|
    ensures Advance(i, |ProductImages|) == i
  {
    AdvanceIsModular(i, |ProductImages|);
  }

  /** The open item of the FAQ list is `i`. */
  predicate IsOpen(openFaq: Option<nat>, i: nat) {
    openFaq == Some(i)
  }

  /**
   * A click on question `i`: it opens when it was closed, closing whichever
   * other answer was open, and it closes when it was open.
   */
  function ToggleFaq(openFaq: Option<nat>, i: nat): (r: Option<nat>)
    ensures forall k :: IsOpen(r, k) <==> k == i && !IsOpen(openFaq, i)
    ensures r == None <==> IsOpen(openFaq, i)
  {
    if openFaq == Some(i) then None else Some(i)
  }

  /** Clicking the same question twice restores the page when it was closed or open. */
  lemma ToggleTwice(openFaq: Option<nat>, i: nat)
    requires openFaq == None || openFaq == Some(i)
    ensures ToggleFaq(ToggleFaq(openFaq, i), i) == openFaq
  {
  }

  /** The `Home` component's carousel and accordion state. */
  class Home {
    var selectedImage: nat
    var openFaq: Option<nat>

    ghost predicate Valid()
      reads this
    {
      selectedImage < |ProductImages| && (openFaq.Some? ==> openFaq.value < |Faqs|)
    }

    constructor ()
      ensures Valid() && selectedImage == 0 && openFaq == None
    {
      selectedImage := 0;
      openFaq := None;
    }

    /** The "Previous image" button. */
    method ShowPrevious()
      requires Valid()
      modifies this`selectedImage
      ensures Valid() && selectedImage == PrevImage(old(selectedImage))
    {
      selectedImage := PrevImage(selectedImage);
    }

    /** The "Next image" button. */
    method ShowNext()
      requires Valid()
      modifies this`selectedImage
      ensures Valid() && selectedImage == NextImage(old(selectedImage))
    {
      selectedImage := NextImage(selectedImage);
    }

    /** A click on thumbnail `i`. */
    method SelectImage(i: nat)
      requires Valid() && i < |ProductImages|
      modifies this`selectedImage
      ensures Valid() && selectedImage == i
    {
      selectedImage := i;
    }

    /** A click on question `i` of the FAQ list. */
    method ClickFaq(i: nat)
      requires Valid() && i < |Faqs|
      modifies this`openFaq
      ensures Valid() && openFaq == ToggleFaq(old(openFaq), i)
    {
      openFaq := ToggleFaq(openFaq, i);
    }
  }
}
