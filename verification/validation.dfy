/** The server's input checks: container identifiers in Docker routes and the
    theme colour a user saves in their settings. */
module Validation {
  import opened Envelopes
  import opened Text

  /** The accent colour used when none valid is available. */
  const DefaultAccent: string := "#38bdf8"

  /** `/^[a-f0-9]{12,64}$/i`: 12 to 64 hexadecimal digits and nothing else
      (a short or a full container id). */
  function IsValidContainerId(id: string): (b: bool)
    ensures b <==> 12 <= |id| <= 64 && forall i :: 0 <= i < |id| ==> IsHexDigit(id[i])
  {
    12 <= |id| <= 64 && AllHex(id)
  }

  /** `/^#[0-9a-fA-F]{6}$/`: a '#' followed by exactly six hexadecimal digits. */
  predicate IsHexColour(s: string) {
    |s| == 7 && s[0] == '#' && AllHex(s[1..])
  }

  /** The colour stored by a settings update: the submission when it is a hex
      colour, the default accent otherwise ("" stands for a missing field). */
  function ThemeColour(submitted: string): (r: string)
    ensures IsHexColour(r)
    ensures r == submitted <==> IsHexColour(submitted)
    ensures !IsHexColour(submitted) ==> r == DefaultAccent
  {
    assert IsHexColour(DefaultAccent) by {
      assert DefaultAccent[1..] == "38bdf8";
    }
    if IsHexColour(submitted) then submitted else DefaultAccent
  }

  /** The colour-relevant part of the signed-in user held in the session;
      "" stands for a missing `theme_color`. */
  datatype SessionUser = SessionUser(themeColour: string)

  /** The page accent: the user's theme colour, or the default when there is
      no user or no colour. */
  function AccentColour(user: Option<SessionUser>): (r: string)
    ensures user.None? ==> r == DefaultAccent
    ensures user.Some? && user.value.themeColour == "" ==> r == DefaultAccent
    ensures user.Some? && user.value.themeColour != "" ==> r == user.value.themeColour
    ensures r != ""
  {
    if user.Some? && user.value.themeColour != "" then user.value.themeColour else DefaultAccent
  }

  /** Saving a colour is idempotent: re-submitting the stored colour keeps it. */
  lemma ThemeColourIdempotent(submitted: string)
    ensures ThemeColour(ThemeColour(submitted)) == ThemeColour(submitted)
  {
  }

  /** After a settings update the session holds the stored colour, so the
      accent shown is always a well-formed hex colour. */
  lemma AccentAfterUpdateIsHexColour(submitted: string)
    ensures IsHexColour(AccentColour(Some(SessionUser(ThemeColour(submitted)))))
  {
  }

  /** Boundary lengths: among all-hex strings, 11 and 65 digits are rejected
      and 12 and 64 accepted. */
  lemma ContainerIdBoundaries(id: string)
    requires forall i :: 0 <= i < |id| ==> IsHexDigit(id[i])
    ensures |id| == 11 || |id| == 65 ==> !IsValidContainerId(id)
    ensures |id| == 12 || |id| == 64 ==> IsValidContainerId(id)
  {
  }

  /** One non-hex character anywhere rejects the id, whatever surrounds it. */
  lemma NonHexCharacterRejected(before: string, c: char, after: string)
    requires !IsHexDigit(c)
    ensures !IsValidContainerId(before + [c] + after)
  {
    var id := before + [c] + after;
    assert id[|before|] == c;
  }
}
