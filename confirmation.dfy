/**
  The confirmation status machine: keyword detection on what the customer says
  (`_detect_confirmation`, app/llm.py:629-658) and the submission marker in the
  assistant's reply (`check_booking_confirmed_marker`, app/llm.py:660-671).
 */
module Confirmation {
  import opened Text
  import opened Booking

  const ConfirmationKeywords := ["yes", "yeah", "yep", "ok", "okay", "correct", "right", "sure",
                                 "fine", "perfect", "that's right", "confirmed", "done",
                                 "absolutely", "exactly"]
  const RejectionKeywords := ["no", "not interested", "cancel", "don't want", "not now"]

  /** `any(keyword in text for keyword in keywords)`: plain substring tests. */
  predicate AnyContained(keywords: seq<string>, text: string) {
    exists i :: 0 <= i < |keywords| && Contains(text, keywords[i])
  }

  /** The status after one customer utterance. Confirmation is tested first;
      each test fires only on a pending status. */
  function DetectConfirmation(status: string, text: string): string {
    var lower := Lower(text);
    var afterConfirm := if AnyContained(ConfirmationKeywords, lower) && status == Pending then Confirmed else status;
    if AnyContained(RejectionKeywords, lower) && afterConfirm == Pending then NotInterested else afterConfirm
  }

  /** The three ways out of `pending`, and no way out of any other status. */
  lemma DetectConfirmationSpec(status: string, text: string)
    ensures status != Pending ==> DetectConfirmation(status, text) == status
    ensures status == Pending ==>
      (DetectConfirmation(status, text) == Confirmed <==> AnyContained(ConfirmationKeywords, Lower(text)))
    ensures status == Pending ==>
      (DetectConfirmation(status, text) == NotInterested <==>
        !AnyContained(ConfirmationKeywords, Lower(text)) && AnyContained(RejectionKeywords, Lower(text)))
    ensures status == Pending ==>
      (DetectConfirmation(status, text) == Pending <==>
        !AnyContained(ConfirmationKeywords, Lower(text)) && !AnyContained(RejectionKeywords, Lower(text)))
  {
  }

  /** The keywords are tested as substrings, so "now" (as in "I need it now")
      counts as the rejection keyword "no". */
  lemma RejectionInsideWord(text: string)
    requires Contains(Lower(text), "now") && !AnyContained(ConfirmationKeywords, Lower(text))
    ensures DetectConfirmation(Pending, text) == NotInterested
  {
    assert StartsWith("now", "no");
    ContainsTransitive(Lower(text), "now", "no");
    assert Contains(Lower(text), RejectionKeywords[0]);
  }

  /** `"BOOKING_CONFIRMED" in response_text`, case-sensitive. */
  predicate HasMarker(response: string) {
    Contains(response, "BOOKING_CONFIRMED")
  }

  /** The status after the assistant's reply: the marker confirms from any
      status, including `not_interested`. */
  function AfterMarker(status: string, response: string): string {
    if HasMarker(response) then Confirmed else status
  }
}
