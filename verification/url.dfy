/** URL classification and normalization over a configured domain
    (src/main.rs `is_url_external`, `is_url_scrapeable`, `normalize_url`).

    All three are raw string-prefix tests: nothing here parses a URL.
 */
module Url {
  import opened Strings

  /** The command-line configuration: the target domain, a hostname such as
      `sophiabits.com`, without scheme or path. */
  datatype Config = Config(domain: string)

  const Scheme: string := "https://"
  const MailtoPrefix: string := "mailto:"
  const FragmentPrefix: string := "#"
  const PathPrefix: string := "/"

  /** The string every internal URL begins with: `https://<domain>`. */
  function Origin(cfg: Config): string
  {
    Scheme + cfg.domain
  }

  /** A URL is external unless it begins with `https://<domain>`. */
  predicate IsExternal(cfg: Config, url: string)
  {
    !StartsWith(url, Origin(cfg))
  }

  /** An href is scrapeable unless it is a mail link or a bare fragment. */
  predicate IsScrapeable(url: string)
  {
    !StartsWith(url, MailtoPrefix) && !StartsWith(url, FragmentPrefix)
  }

  /** Rewrites a domain-relative path `/p` to `https://<domain>/p`; every
      other string is returned unchanged. */
  function Normalize(cfg: Config, url: string): (r: string)
  {
    if StartsWith(url, PathPrefix) then Origin(cfg) + url else url
  }

  /** External exactly when the origin is not a prefix of the URL, checked
      over the characters themselves. */
  lemma IsExternalCharacterization(cfg: Config, url: string)
    ensures IsExternal(cfg, url) <==>
      !(|Scheme| + |cfg.domain| <= |url|
        && url[..|Scheme|] == Scheme
        && url[|Scheme|..|Scheme| + |cfg.domain|] == cfg.domain)
  {
    var o := Origin(cfg);
    StartsWithIsPrefix(url, o);
    if |o| <= |url| && url[..|Scheme|] == Scheme
       && url[|Scheme|..|o|] == cfg.domain {
      assert url[..|o|] == url[..|Scheme|] + url[|Scheme|..|o|];
    }
    if o <= url {
      assert url[..|Scheme|] == o[..|Scheme|];
      assert url[|Scheme|..|o|] == o[|Scheme|..];
    }
  }

  /** The test is a prefix test only: any string that continues the origin,
      such as `https://<domain>.evil.com`, counts as internal. */
  lemma PrefixSpoofIsInternal(cfg: Config, suffix: string)
    ensures !IsExternal(cfg, Origin(cfg) + suffix)
  {
    StartsWithConcat(Origin(cfg), suffix);
  }

  /** A URL that differs from the origin at some position both share is
      external. */
  lemma DiffersFromOriginIsExternal(cfg: Config, url: string, i: nat)
    requires i < |url| && i < |Origin(cfg)| && url[i] != Origin(cfg)[i]
    ensures IsExternal(cfg, url)
  {
    StartsWithIsPrefix(url, Origin(cfg));
  }

  /** Not scrapeable exactly when the href begins with `mailto:` or `#`. */
  lemma IsScrapeableCharacterization(url: string)
    ensures !IsScrapeable(url) <==>
      (|url| >= 7 && url[..7] == "mailto:") || (|url| >= 1 && url[0] == '#')
  {
    StartsWithIsPrefix(url, MailtoPrefix);
    StartsWithIsPrefix(url, FragmentPrefix);
    if |url| >= 1 && url[0] == '#' {
      assert url[..1] == FragmentPrefix;
    }
  }

  /** A string starts with `/` exactly when its first character is `/`. */
  lemma StartsWithPath(url: string)
    ensures StartsWith(url, PathPrefix) <==> |url| >= 1 && url[0] == '/'
  {
    StartsWithIsPrefix(url, PathPrefix);
    if |url| >= 1 && url[0] == '/' {
      assert url[..1] == PathPrefix;
    }
  }

  /** What normalization does: a `/`-path gains the origin in front of it,
      anything else is left alone, and the input always survives as the
      suffix of the output. */
  lemma NormalizeCharacterization(cfg: Config, url: string)
    ensures |url| >= 1 && url[0] == '/' ==>
      Normalize(cfg, url) == Scheme + cfg.domain + url
    ensures !(|url| >= 1 && url[0] == '/') ==> Normalize(cfg, url) == url
    ensures |Normalize(cfg, url)| >= |url|
    ensures Normalize(cfg, url)[|Normalize(cfg, url)| - |url|..] == url
  {
    StartsWithPath(url);
  }

  /** Normalization rewrites a string exactly when it is a `/`-path. */
  lemma NormalizeChangesOnlyPaths(cfg: Config, url: string)
    ensures Normalize(cfg, url) != url <==> |url| >= 1 && url[0] == '/'
  {
    StartsWithPath(url);
    if StartsWith(url, PathPrefix) {
      assert |Normalize(cfg, url)| > |url|;
    }
  }

  /** A normalized string never begins with `/`: a rewritten path begins
      with the `h` of `https://`. */
  lemma NormalizedIsNotPath(cfg: Config, url: string)
    ensures !StartsWith(Normalize(cfg, url), PathPrefix)
  {
    StartsWithPath(url);
    var r := Normalize(cfg, url);
    StartsWithPath(r);
    if StartsWith(url, PathPrefix) {
      assert r[0] == Scheme[0] == 'h';
    }
  }

  /** Normalizing twice is normalizing once. */
  lemma NormalizeIdempotent(cfg: Config, url: string)
    ensures Normalize(cfg, Normalize(cfg, url)) == Normalize(cfg, url)
  {
    NormalizedIsNotPath(cfg, url);
  }

  /** A normalized `/`-path always lands on the configured domain. */
  lemma NormalizedPathIsInternal(cfg: Config, url: string)
    requires StartsWith(url, PathPrefix)
    ensures !IsExternal(cfg, Normalize(cfg, url))
  {
    PrefixSpoofIsInternal(cfg, url);
  }

  /** Normalization never turns an internal URL external or the reverse,
      except by resolving a `/`-path, which always becomes internal. */
  lemma NormalizePreservesClass(cfg: Config, url: string)
    ensures !StartsWith(url, PathPrefix) ==>
      IsExternal(cfg, Normalize(cfg, url)) == IsExternal(cfg, url)
    ensures StartsWith(url, PathPrefix) ==> !IsExternal(cfg, Normalize(cfg, url))
  {
    if StartsWith(url, PathPrefix) {
      NormalizedPathIsInternal(cfg, url);
    }
  }
}
