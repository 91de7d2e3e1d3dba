/** The destination URL the script is configured with, and the check that
    it was filled in before forwarding is attempted. */
module Configuration {
  import opened Php

  /** The destination the script is deployed with,
      https://aistudio.didbi.com/webhook/form/cargo_selection, written in
      four pieces. */
  const ShippedWebhookUrl: string :=
    "https://" + "aistudio.didbi.com" + "/webhook/form/" + "cargo_selection"
  /** The part of the placeholder URL that marks it as never filled in. */
  const PlaceholderMarker: string := "your-n8n-domain"

  /** The destination is set (not "" and not "0") and no part of it is the
      placeholder marker. */
  predicate IsConfigured(url: string): (r: bool)
    ensures r <==> url != "" && url != "0"
                   && forall before, after :: url != before + PlaceholderMarker + after
  {
    !IsEmptyString(url) && !Contains(url, PlaceholderMarker)
  }

  /** A set URL without the placeholder's first letter is configured. */
  lemma ConfiguredWithoutMarkerLetter(url: string)
    requires !IsEmptyString(url) && 'y' !in url
    ensures IsConfigured(url)
  {
    assert PlaceholderMarker[0] == 'y';
    FirstCharAbsent(url, PlaceholderMarker);
  }

  /** The shipped URL, checked piece by piece. */
  lemma NoMarkerLetterInShippedUrl()
    ensures 'y' !in ShippedWebhookUrl
  {
    assert 'y' !in "https://";
    assert 'y' !in "aistudio.didbi.com";
    assert 'y' !in "/webhook/form/";
    assert 'y' !in "cargo_selection";
  }

  /** The URL the script ships with is configured, so a well-formed POST is
      always forwarded. */
  lemma ShippedUrlIsConfigured()
    ensures IsConfigured(ShippedWebhookUrl)
  {
    NoMarkerLetterInShippedUrl();
    ConfiguredWithoutMarkerLetter(ShippedWebhookUrl);
  }

  /** The placeholder URL, the empty URL and "0" are not configured. */
  lemma PlaceholderIsNotConfigured()
    ensures !IsConfigured("https://your-n8n-domain.com/webhook/cargo")
    ensures !IsConfigured("") && !IsConfigured("0")
  {
    var placeholder := "https://your-n8n-domain.com/webhook/cargo";
    assert PlaceholderMarker <= placeholder[8..];
  }
}
