/**
 config.yml as a text: what is left of it when a crash falls into `Save` of
 `internal/config/config.go`, which rewrites the file in place, and what `Load`
 and the checks of a start make of it (`cmd/proxmoxvue-agent/main.go`,
 `internal/runtime/runtime.go`).
 */
module ConfigFile {
  import opened Common

  /**
   Everything but token and key.  `rest` holds verify_tls and the agent section:
   poll interval, log level, log file path, maximal size, backups and age.
   */
  datatype Settings = Settings(clusterId: string, apiUrl: string, tokenId: string, tokenSecret: string,
                               rest: seq<string>)

  datatype Fields = Fields(refreshToken: string, privateKey: string, settings: Settings)

  /** The values line by line, in the order Save writes them; an empty private key has no line. */
  function Lines(f: Fields): seq<string> {
    var s := f.settings;
    [s.clusterId, f.refreshToken] + (if f.privateKey == "" then [] else [f.privateKey])
    + [s.apiUrl, s.tokenId, s.tokenSecret] + s.rest
  }

  /** The number of the line of the API URL. */
  function UrlLine(f: Fields): nat { if f.privateKey == "" then 2 else 3 }

  /**
   What follows the last complete line: nothing that sets a value, text that does
   not decode, or the beginning of the next value.
   */
  datatype Tail = Nothing | Undecodable | Beginning(text: string)

  datatype Cut = Cut(lines: nat, tail: Tail)

  /** A cut before the first line. */
  const EMPTY: Cut := Cut(0, Nothing)

  predicate IsCut(f: Fields, c: Cut) {
    && c.lines <= |Lines(f)|
    && (c.tail.Beginning? ==> c.lines < |Lines(f)| && c.tail.text <= Lines(f)[c.lines])
  }

  /** The value Load finds on a line: a missing key is an empty string. */
  function ValueAt(f: Fields, c: Cut, line: nat): string
    requires IsCut(f, c)
  {
    if line < c.lines then Lines(f)[line]
    else if line == c.lines && c.tail.Beginning? then c.tail.text
    else ""
  }

  function Load(f: Fields, c: Cut): Option<Fields>
    requires IsCut(f, c)
  {
    if c.tail.Undecodable? then None
    else
      var u := UrlLine(f);
      Some(Fields(ValueAt(f, c, 1), if f.privateKey == "" then "" else ValueAt(f, c, 2),
                  Settings(ValueAt(f, c, 0), ValueAt(f, c, u), ValueAt(f, c, u + 1), ValueAt(f, c, u + 2),
                           seq(|f.settings.rest|, i requires i >= 0 => ValueAt(f, c, u + 3 + i)))))
  }

  // ----- the checks of a start -----

  predicate Blank(s: string) { forall i :: 0 <= i < |s| ==> s[i] in " \t\n\r" }

  /** validate of runtime.go with Config.Valid of the Proxmox client. */
  predicate Validates(f: Fields) {
    && f.settings.clusterId != "" && f.refreshToken != ""
    && ("https://" <= f.settings.apiUrl || "http://" <= f.settings.apiUrl)
    && !Blank(f.settings.tokenId) && !Blank(f.settings.tokenSecret)
  }

  function Lower(s: string): string {
    seq(|s|, i requires 0 <= i < |s| => if 'A' <= s[i] <= 'Z' then s[i] - 'A' + 'a' else s[i])
  }

  /** ParseLogLevel, on a level without blanks around it. */
  predicate LevelOk(s: Settings) {
    |s.rest| > 2 ==> Lower(s.rest[2]) in ["", "info", "debug", "warn", "warning", "error"]
  }

  predicate Starts(f: Fields, c: Cut)
    requires IsCut(f, c)
  {
    Load(f, c).Some? && Validates(Load(f, c).value)
  }

  lemma LinesInOrder(f: Fields)
    ensures var u := UrlLine(f);
            && |Lines(f)| == u + 3 + |f.settings.rest|
            && Lines(f)[0] == f.settings.clusterId && Lines(f)[1] == f.refreshToken
            && (u == 3 ==> Lines(f)[2] == f.privateKey)
            && Lines(f)[u] == f.settings.apiUrl && Lines(f)[u + 1] == f.settings.tokenId
            && Lines(f)[u + 2] == f.settings.tokenSecret && Lines(f)[u + 3..] == f.settings.rest
  {
  }

  /** The cut decodes and falls behind at least one visible character of the token secret. */
  predicate ReachesSecret(f: Fields, c: Cut) {
    var secret := UrlLine(f) + 2;
    !c.tail.Undecodable? && (c.lines > secret || (c.lines == secret && c.tail.Beginning? && !Blank(c.tail.text)))
  }

  /** The same settings up to a shorter secret and other values behind it. */
  predicate Shortened(s: Settings, t: Settings) {
    s.clusterId == t.clusterId && s.apiUrl == t.apiUrl && s.tokenId == t.tokenId && s.tokenSecret <= t.tokenSecret
  }

  /**
   A config that was being saved passes Load and validation after the crash
   exactly if it was valid and the cut reaches the secret.  Then everything
   before the secret is complete, the refresh token and the private key
   included, and the secret is complete exactly if the cut is behind it.
   */
  lemma CutStarts(f: Fields, c: Cut)
    requires IsCut(f, c)
    ensures Starts(f, c) <==> Validates(f) && ReachesSecret(f, c)
    ensures Starts(f, c) ==>
              var g := Load(f, c).value;
              && g.refreshToken == f.refreshToken && g.privateKey == f.privateKey
              && Shortened(g.settings, f.settings)
              && (g.settings.tokenSecret == f.settings.tokenSecret <==>
                    c.lines > UrlLine(f) + 2 || c.tail.text == f.settings.tokenSecret)
  {
    LinesInOrder(f);
    var u := UrlLine(f);
    if c.lines < u + 2 {
      assert ValueAt(f, c, u + 2) == "" && !ReachesSecret(f, c);
    } else if c.lines == u + 2 {
      assert ValueAt(f, c, u) == f.settings.apiUrl && ValueAt(f, c, u + 1) == f.settings.tokenId;
      assert ValueAt(f, c, u + 2) == if c.tail.Beginning? then c.tail.text else "";
    }
  }

  // ----- EnsureDefaults -----

  /** What Save writes for a value that is not set: verify_tls false, then the defaults of the agent section. */
  const DEFAULTS: seq<string> := ["false", "30", "info", "/var/log/proxmoxvue-agent.log", "10", "5", "30"]

  predicate Unset(i: nat, value: string) { value == "" || (value == "0" && i in [1, 4, 5, 6]) }

  function WithDefaults(s: Settings): Settings {
    s.(rest := seq(|s.rest|, i requires 0 <= i < |s.rest| =>
      if i < |DEFAULTS| && Unset(i, s.rest[i]) then DEFAULTS[i] else s.rest[i]))
  }

  /**
   Filling in defaults twice is filling them in once; it changes nothing a start
   validates and spoils no log level.
   */
  lemma DefaultsKeep(s: Settings)
    ensures WithDefaults(WithDefaults(s)) == WithDefaults(s)
    ensures Shortened(WithDefaults(s), s) && WithDefaults(s).tokenSecret == s.tokenSecret
    ensures LevelOk(s) ==> LevelOk(WithDefaults(s))
  {
    var t := WithDefaults(s);
    assert forall i :: 0 <= i < |t.rest| ==> (i < |DEFAULTS| ==> !Unset(i, t.rest[i]));
    assert WithDefaults(t).rest == t.rest;
    if |s.rest| > 2 {
      assert Lower("info") == "info";
    }
  }

  /** The defaults, value by value; what is set stays. */
  lemma DefaultsExact(s: Settings)
    requires |s.rest| == 7
    ensures var was, now := s.rest, WithDefaults(s).rest;
            && |now| == 7
            && now[0] == (if was[0] == "" then "false" else was[0])
            && now[1] == (if was[1] == "" || was[1] == "0" then "30" else was[1])
            && now[2] == (if was[2] == "" then "info" else was[2])
            && now[3] == (if was[3] == "" then "/var/log/proxmoxvue-agent.log" else was[3])
            && now[4] == (if was[4] == "" || was[4] == "0" then "10" else was[4])
            && now[5] == (if was[5] == "" || was[5] == "0" then "5" else was[5])
            && now[6] == (if was[6] == "" || was[6] == "0" then "30" else was[6])
  {
  }

  /** What a start asks of a config: something in each required place, and an address with a scheme. */
  lemma ValidatesExact(f: Fields)
    ensures Validates(f) <==>
              && |f.settings.clusterId| > 0 && |f.refreshToken| > 0
              && (exists rest: string :: f.settings.apiUrl in ["https://" + rest, "http://" + rest])
              && (exists c :: c in f.settings.tokenId && c !in [' ', '\t', '\n', '\r'])
              && (exists c :: c in f.settings.tokenSecret && c !in [' ', '\t', '\n', '\r'])
  {
    var url := f.settings.apiUrl;
    if "https://" <= url { assert url == "https://" + url[8..]; }
    if "http://" <= url { assert url == "http://" + url[7..]; }
    VisibleExact(f.settings.tokenId);
    VisibleExact(f.settings.tokenSecret);
  }

  lemma VisibleExact(s: string)
    ensures !Blank(s) <==> exists c :: c in s && c !in [' ', '\t', '\n', '\r']
  {
    if !Blank(s) {
      var i :| 0 <= i < |s| && s[i] !in " \t\n\r";
      assert s[i] in s && s[i] !in [' ', '\t', '\n', '\r'];
    }
  }
}
