/**
 * The URL normalisation of the proxy input form. Both the Test button (`handleSubmit`) and
 * the Browse button apply it to the input field before calling `onConnect` / `onBrowse`.
 */
module ProxyInterface {
  import opened Wrappers
  import opened Text

  /** The protocol radio group offers exactly these two values; the initial one is `https`. */
  datatype Scheme = Http | Https

  const InitialScheme := Https

  function SchemeName(p: Scheme): string {
    match p
    case Http => "http"
    case Https => "https"
  }

  predicate HasScheme(u: string) {
    StartsWith(u, "http://") || StartsWith(u, "https://")
  }

  /**
   * The URL the form passes on for the field `input` and the selected protocol, or `None`
   * when the trimmed input is empty and no callback is invoked.
   */
  function Normalize(input: string, protocol: Scheme): (r: Option<string>)
    ensures r.None? <==> Trim(input) == ""
    ensures r.Some? && HasScheme(Trim(input)) ==> r.value == Trim(input)
    ensures r.Some? && !HasScheme(Trim(input)) ==> r.value == SchemeName(protocol) + "://" + Trim(input)
  {
    var t := Trim(input);
    if t == "" then None
    else if HasScheme(t) then Some(t)
    else Some(SchemeName(protocol) + "://" + t)
  }

  /** Whatever the input and the selected protocol, a URL passed on starts with `http://` or `https://`. */
  lemma NormalizedHasScheme(input: string, protocol: Scheme)
    requires Normalize(input, protocol).Some?
    ensures HasScheme(Normalize(input, protocol).value)
  {
    var t := Trim(input);
    if !HasScheme(t) {
      var u := SchemeName(protocol) + "://" + t;
      assert u == SchemeName(protocol) + "://" + t;
      if protocol.Http? {
        assert u[..7] == "http://";
      } else {
        assert u[..8] == "https://";
      }
    }
  }

  /** Until the user picks a protocol, an input without a scheme is sent as `https://` followed by the trimmed input. */
  lemma InitialProtocolIsHttps(input: string)
    requires Trim(input) != "" && !HasScheme(Trim(input))
    ensures Normalize(input, InitialScheme) == Some("https://" + Trim(input))
  {
    assert SchemeName(InitialScheme) + "://" == "https://";
  }

  /** Normalising a URL the form has already passed on returns it unchanged, whichever protocol is selected. */
  lemma NormalizeIdempotent(input: string, protocol: Scheme, again: Scheme)
    requires Normalize(input, protocol).Some?
    ensures Normalize(Normalize(input, protocol).value, again) == Normalize(input, protocol)
  {
    var u := Normalize(input, protocol).value;
    var t := Trim(input);
    TrimmedEnds(input);
    NormalizedHasScheme(input, protocol);
    assert u[0] == 'h';
    assert u[|u| - 1] == t[|t| - 1];
    TrimNoSpaceEnds(u);
  }
}
