/** A few concrete URLs of the configured site `sophiabits.com` and how the
    URL helpers and the enqueue filter of src/main.rs classify them. */
module Pages {
  import opened Strings
  import opened Url
  import opened Crawl

  const Site := Config("sophiabits.com")
  const About: string := "https://sophiabits.com/about"
  const External: string := "https://external.example"

  /** The seed is exactly the configured site's origin. */
  lemma SeedIsOrigin()
    ensures Origin(Site) == Seed
  {
  }

  /** The seed is left alone by normalization and is internal. */
  lemma SeedIsInternal()
    ensures Normalize(Site, Seed) == Seed && !IsExternal(Site, Seed)
  {
    SeedIsOrigin();
    StartsWithPath(Seed);
    assert Origin(Site) + [] == Seed;
    PrefixSpoofIsInternal(Site, []);
  }

  /** `/about` normalizes to the absolute about page, which is internal. */
  lemma AboutIsInternal()
    ensures Normalize(Site, "/about") == About && !IsExternal(Site, About)
  {
    SeedIsOrigin();
    StartsWithPath("/about");
    assert Seed + "/about" == About;
    PrefixSpoofIsInternal(Site, "/about");
  }

  /** `https://external.example` is left alone and is external. */
  lemma ExternalIsExternal()
    ensures Normalize(Site, External) == External && IsExternal(Site, External)
  {
    SeedIsOrigin();
    StartsWithPath(External);
    assert External[8] != Seed[8];
    DiffersFromOriginIsExternal(Site, External, 8);
  }

  /** A `mailto:` href is not scrapeable. */
  lemma MailtoIsFiltered()
    ensures !IsScrapeable("mailto:a@b.com")
  {
    IsScrapeableCharacterization("mailto:a@b.com");
    assert "mailto:a@b.com"[..7] == "mailto:";
  }

  /** A fragment href is not scrapeable. */
  lemma FragmentIsFiltered()
    ensures !IsScrapeable("#top")
  {
    IsScrapeableCharacterization("#top");
  }

  /** `/about` passes the filter while only the seed is visited. */
  lemma AboutIsAdmissible()
    ensures Admissible({Seed}, "/about")
  {
    IsScrapeableCharacterization("/about");
    assert "/about"[0] != Seed[0];
  }

  /** The external URL passes the filter while only the seed is visited. */
  lemma ExternalIsAdmissible()
    ensures Admissible({Seed}, External)
  {
    IsScrapeableCharacterization(External);
    assert External[8] != Seed[8];
  }

  /** The filter drops the two unscrapeable home-page links. */
  lemma HomeLinksTail()
    ensures NewLinks(["#top", "mailto:a@b.com", External], {Seed}) == [External]
  {
    MailtoIsFiltered();
    FragmentIsFiltered();
    ExternalIsAdmissible();
    assert NewLinks([External], {Seed}) == [External];
    assert ["#top", "mailto:a@b.com", External][1..] == ["mailto:a@b.com", External];
    assert ["mailto:a@b.com", External][1..] == [External];
  }

  /** The enqueue filter on the home page's four links. */
  lemma HomeLinks()
    ensures NewLinks(["/about", "#top", "mailto:a@b.com", External], {Seed}) == ["/about", External]
  {
    AboutIsAdmissible();
    HomeLinksTail();
    assert ["/about", "#top", "mailto:a@b.com", External][1..] == ["#top", "mailto:a@b.com", External];
  }

  /** The absolute about page passes the filter after `/about` is visited. */
  lemma AboutLinksItself()
    ensures NewLinks([About], {Seed, "/about"}) == [About]
  {
    IsScrapeableCharacterization(About);
    assert |About| != |Seed| && |About| != |"/about"|;
  }

  /** The filter keeps both copies of a path listed twice. */
  lemma RepeatedPathKept()
    ensures NewLinks(["/a", "/a"], {Seed}) == ["/a", "/a"]
  {
    IsScrapeableCharacterization("/a");
    assert NewLinks(["/a"], {Seed}) == ["/a"];
  }

  /** The visited sets the scenarios pass through. */
  lemma VisitedSets()
    ensures Init().visited + {Seed} == {Seed}
    ensures {Seed} + {"/about"} == {Seed, "/about"}
    ensures {Seed, "/about"} + {External} == {Seed, "/about", External}
  {
  }
}
