/**
 * `load_user_config`: the per-user settings read from `config/users.json`,
 * with defaults for the optional keys. Every failure inside the `try`
 * (an unreadable file, a missing key, a value of the wrong type) becomes
 * `None` with an error message; an unknown user is `None` silently.
 */
module Config {
  import opened Wrappers
  import opened JsonValues
  import opened Names

  /** The configuration file: unreadable or unparsable, or a parsed document. */
  datatype ConfigFile = ConfigUnreadable | ConfigParsed(doc: Json)

  datatype UserConfig = UserConfig(
    password: Json,
    baseDir: string,
    baselineFile: string,
    pageTitle: Json,
    ideasFile: string,
    baselineScore: Json,
    metric: Json,
    random: bool)

  /** What the call comes to: a configuration, an unknown user, or an error shown to the user. */
  datatype ConfigOutcome = Loaded(config: UserConfig) | UnknownUser | ConfigError

  const DefaultBaselineScore: real := 0.51
  const DefaultMetric: string := "ROC_AUC"

  /** Python's `needle in haystack` on two strings. */
  predicate IsSubstring(needle: string, haystack: string) {
    exists i | 0 <= i <= |haystack| - |needle| :: OccursAt(needle, haystack, i)
  }

  predicate OccursAt(needle: string, haystack: string, i: int) {
    0 <= i <= |haystack| - |needle| && haystack[i..i + |needle|] == needle
  }

  /** `Path(v)` succeeds only on a string. */
  predicate IsPathText(fields: map<string, Json>, key: string) {
    key in fields && fields[key].Str?
  }

  /** `user_config.get('random', 'false').lower() == 'true'`, or `None` when `.lower()` fails. */
  function RandomFlag(fields: map<string, Json>): Option<bool> {
    if "random" !in fields then Some(false)
    else if fields["random"].Str? then Some(IsTrueText(fields["random"].s))
    else None
  }

  /** Builds the configuration from the user's entry, failing where the source's dict literal fails. */
  function FromEntry(entry: Json): (r: ConfigOutcome)
    ensures r != UnknownUser
    ensures r.Loaded? <==>
      entry.Obj?
      && "password" in entry.fields && "page_title" in entry.fields
      && IsPathText(entry.fields, "base_dir") && IsPathText(entry.fields, "baseline_file")
      && IsPathText(entry.fields, "ideas_file")
      && RandomFlag(entry.fields).Some?
    // The stored values are kept; the optional keys get their defaults.
    ensures r.Loaded? ==>
      var f := entry.fields;
      && r.config.password == f["password"] && r.config.pageTitle == f["page_title"]
      && Str(r.config.baseDir) == f["base_dir"] && Str(r.config.baselineFile) == f["baseline_file"]
      && Str(r.config.ideasFile) == f["ideas_file"]
      && r.config.baselineScore == (if "baseline_score" in f then f["baseline_score"] else Num(0.51))
      && r.config.metric == (if "metric" in f then f["metric"] else Str("ROC_AUC"))
      && (r.config.random <==> "random" in f && f["random"].Str? && Lower(f["random"].s) == "true")
  {
    if !entry.Obj? then ConfigError
    else
      var f := entry.fields;
      if "password" !in f || !IsPathText(f, "base_dir") || !IsPathText(f, "baseline_file")
         || "page_title" !in f || !IsPathText(f, "ideas_file") then ConfigError
      else
        match RandomFlag(f)
        case None => ConfigError
        case Some(random) =>
          Loaded(UserConfig(
            f["password"], f["base_dir"].s, f["baseline_file"].s, f["page_title"], f["ideas_file"].s,
            Get(f, "baseline_score", Num(DefaultBaselineScore)),
            Get(f, "metric", Str(DefaultMetric)),
            random))
  }

  /** `load_user_config(username)`. */
  function LoadUserConfig(file: ConfigFile, username: string): (r: ConfigOutcome)
    // An object that does not list the user: `None`, and no error.
    ensures file.ConfigParsed? && file.doc.Obj? && username !in file.doc.fields ==> r == UnknownUser
    // Only an object holding the user can yield a configuration.
    ensures r.Loaded? ==> file.ConfigParsed? && file.doc.Obj? && username in file.doc.fields
    ensures file.ConfigUnreadable? ==> r == ConfigError
    // A listed user gets whatever the user's own entry yields.
    ensures file.ConfigParsed? && file.doc.Obj? && username in file.doc.fields ==>
      r == FromEntry(file.doc.fields[username])
    // A list passes the membership test when it holds the name as a string, and then indexing it fails.
    ensures file.ConfigParsed? && file.doc.Arr? ==>
      (r == ConfigError <==> Str(username) in file.doc.items) && (r == UnknownUser <==> Str(username) !in file.doc.items)
    // A string passes the membership test when it contains the name, and then indexing it fails.
    ensures file.ConfigParsed? && file.doc.Str? ==>
      (r == ConfigError <==> IsSubstring(username, file.doc.s)) && (r == UnknownUser <==> !IsSubstring(username, file.doc.s))
    // The membership test itself fails on null, a boolean or a number.
    ensures file.ConfigParsed? && (file.doc.Null? || file.doc.Bool? || file.doc.Num?) ==> r == ConfigError
  {
    match file
    case ConfigUnreadable => ConfigError
    case ConfigParsed(doc) =>
      match doc
      case Obj(users) => if username in users then FromEntry(users[username]) else UnknownUser
      // `username in config` on a list compares elements; indexing the list by a string then fails.
      case Arr(items) => if Str(username) in items then ConfigError else UnknownUser
      // On a string `in` tests for a substring; indexing the string by a string then fails.
      case Str(s) => if IsSubstring(username, s) then ConfigError else UnknownUser
      // `in` on None, a bool or a number raises.
      case _ => ConfigError
  }

  /** The value the source returns: the configuration, or `None`. */
  function AsOption(r: ConfigOutcome): Option<UserConfig> {
    if r.Loaded? then Some(r.config) else None
  }

  /** Removing any required key from the user's entry makes the whole load fail. */
  lemma RequiredKeys(users: map<string, Json>, username: string, key: string)
    requires username in users && users[username].Obj?
    requires key in {"password", "base_dir", "baseline_file", "page_title", "ideas_file"}
    requires key !in users[username].fields
    ensures LoadUserConfig(ConfigParsed(Obj(users)), username) == ConfigError
    ensures AsOption(LoadUserConfig(ConfigParsed(Obj(users)), username)) == None
  {
  }

  /** A user entry with exactly the required string keys loads with every default. */
  lemma DefaultsApplied(users: map<string, Json>, username: string, password: string, base: string,
                        baseline: string, title: string, ideas: string)
    requires username in users
    requires users[username] == Obj(map[
      "password" := Str(password), "base_dir" := Str(base), "baseline_file" := Str(baseline),
      "page_title" := Str(title), "ideas_file" := Str(ideas)])
    ensures LoadUserConfig(ConfigParsed(Obj(users)), username)
      == Loaded(UserConfig(Str(password), base, baseline, Str(title), ideas, Num(0.51), Str("ROC_AUC"), false))
  {
  }
}
