// The flag-driven entry point: `--type` names the feed and `--save/--no-save`
// is a boolean; a saved feed is indented by 2.
module EarthquakeCli {
  import opened Pipeline

  const InvalidTypeMessage := "\nError: The parameter for --type is invalid!\n"
  const JsonIndent := 2

  /** The click command `main(type, save)`. */
  method Command(host: Host, feedType: string, save: bool, env: Env)
    modifies host
    ensures host.stdout == old(host.stdout) + Transcript(feedType, save, env, InvalidTypeMessage)
    ensures host.saved == old(host.saved) + Saved(feedType, save, env, JsonIndent)
  {
    Run(host, feedType, save, env, InvalidTypeMessage, JsonIndent);
  }
}
