/** The embed snippet shown for a project: a script tag whose only
    variable part is the project key. */
module EmbedSnippet {
  import opened Wrappers

  const SnippetPrefix := "<script src=\"https://your-domain.com/widget.js\" data-project-key=\""
  const SnippetSuffix := "\" async defer></script>"

  function Snippet(projectKey: string): (s: string)
    ensures |s| == |SnippetPrefix| + |projectKey| + |SnippetSuffix|
    ensures s[..|SnippetPrefix|] == SnippetPrefix
    ensures s[|s| - |SnippetSuffix|..] == SnippetSuffix
  {
    SnippetPrefix + projectKey + SnippetSuffix
  }

  /** The project key inside a snippet, if the text is one. */
  function SnippetKey(s: string): Option<string>
  {
    var lo := |SnippetPrefix|;
    var hi := |s| - |SnippetSuffix|;
    if lo <= hi && s[..lo] == SnippetPrefix && s[hi..] == SnippetSuffix
    then Some(s[lo..hi])
    else None
  }

  /** Stripping the fixed parts recovers the key, and only snippets
      yield a key. */
  lemma SnippetRoundTrip(projectKey: string, s: string)
    ensures SnippetKey(Snippet(projectKey)) == Some(projectKey)
    ensures SnippetKey(s) == Some(projectKey) ==> s == Snippet(projectKey)
  {
  }

  /** Distinct keys give distinct snippets. */
  lemma SnippetInjective(k1: string, k2: string)
    ensures Snippet(k1) == Snippet(k2) <==> k1 == k2
  {
    SnippetRoundTrip(k1, Snippet(k2));
  }
}
