/**
  The line `logMiddleware` appends for every request that reaches it:
  timestamp, " - ", who, " - ", HTTP method, " ", url, newline.
  Creating the directory and appending to the file are not modelled.
 */
module AuditLog {
  import opened Domain

  const Anonymous := "Anonymous"

  /** `user?.name || 'Anonymous'`: the name when there is a user with a non-empty name. */
  function Who(user: Option<Claims>): (w: string)
    ensures w != ""
    ensures user.Some? && user.value.name != "" ==> w == user.value.name
    ensures user.None? || user.value.name == "" ==> w == Anonymous
  {
    if user.Some? && user.value.name != "" then user.value.name else Anonymous
  }

  function Entry(timestamp: string, user: Option<Claims>, verb: string, url: string): (line: string)
    // every field is copied verbatim into its own slice of the line
    ensures var w := Who(user);
            var a := |timestamp|;
            var b := a + 3 + |w|;
            var c := b + 3 + |verb|;
            && |line| == c + 1 + |url| + 1
            && line[..a] == timestamp
            && line[a..a + 3] == " - "
            && line[a + 3..b] == w
            && line[b..b + 3] == " - "
            && line[b + 3..c] == verb
            && line[c] == ' '
            && line[c + 1..|line| - 1] == url
            && line[|line| - 1] == '\n'
  {
    timestamp + " - " + Who(user) + " - " + verb + " " + url + "\n"
  }

  predicate NoNewline(s: string) {
    forall i :: 0 <= i < |s| ==> s[i] != '\n'
  }

  /** When no field holds a newline, an entry is exactly one line: its only newline is the last character. */
  lemma EntryIsOneLine(timestamp: string, user: Option<Claims>, verb: string, url: string)
    requires NoNewline(timestamp) && NoNewline(verb) && NoNewline(url)
    requires user.Some? ==> NoNewline(user.value.name)
    ensures var line := Entry(timestamp, user, verb, url);
            && line[|line| - 1] == '\n'
            && NoNewline(line[..|line| - 1])
  {
  }
}
