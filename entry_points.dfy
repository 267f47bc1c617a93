// The two entry points print the same report; they differ only in the
// message for an undecodable feed, in how the save choice is given, and in
// the indentation of a saved feed.
module EntryPoints {
  import opened Pipeline
  import EarthquakeCli
  import Earthquake

  /** With the same feed id and the same save decision, both entry points
      print the same lines for a fetched feed and write a file of the same
      name, indented 2 by the flag-driven one and 4 by the prompt-driven one. */
  lemma SameReport(feedId: string, saveAnswer: string, env: Env)
    requires env.fetch(FeedUrl(feedId)).Decoded?
    ensures Transcript(feedId, Earthquake.SaveRequested(saveAnswer), env, EarthquakeCli.InvalidTypeMessage) ==
            Transcript(feedId, Earthquake.SaveRequested(saveAnswer), env, Earthquake.InvalidMessage)
    ensures var cli := Saved(feedId, Earthquake.SaveRequested(saveAnswer), env, EarthquakeCli.JsonIndent);
            var script := Saved(feedId, Earthquake.SaveRequested(saveAnswer), env, Earthquake.JsonIndent);
            |cli| == |script| &&
            forall k :: 0 <= k < |cli| ==> cli[k].name == script[k].name && cli[k].indent == 2 && script[k].indent == 4
  {
  }

  /** An undecodable feed is reported with different words. */
  lemma DifferentDecodeMessage(feedId: string, save: bool, env: Env)
    requires env.fetch(FeedUrl(feedId)) == NotJson
    ensures Transcript(feedId, save, env, EarthquakeCli.InvalidTypeMessage) !=
            Transcript(feedId, save, env, Earthquake.InvalidMessage)
  {
    assert Transcript(feedId, save, env, EarthquakeCli.InvalidTypeMessage)[1] == EarthquakeCli.InvalidTypeMessage;
    assert |EarthquakeCli.InvalidTypeMessage| != |Earthquake.InvalidMessage|;
  }
}
