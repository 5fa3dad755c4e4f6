/**
 * The server configuration: the defaults, the overrides taken from
 * environment variables, and the per-property lines printed at start-up,
 * with secrets masked. Environment lookups are passed in as values.
 */
module ServerConfig {
  import opened Sequences

  const EnvVarDbUsername: string := "STM_DB_USERNAME"
  const EnvVarDbPassword: string := "STM_DB_PASSWORD"
  const EnvVarOAuthConsumerKey: string := "OAUTH_CONSUMER_KEY"
  const EnvVarOAuthSecret: string := "OAUTH_SECRET"

  const DefaultTokenInvalidityDuration: string := "24h"
  const DefaultDbUsername: string := "stm"
  const DefaultDbPassword: string := "secret"
  const DefaultMaxTasksPerProject: int := 1000

  /** The value shown instead of a secret. */
  const Mask: string := "******"
  /** The width the property names are padded to. */
  const NameWidth: nat := 21

  /** The result of `os.LookupEnv`: unset, or set to a value (possibly empty). */
  datatype Lookup = Unset | Set(value: string)

  /** The value `os.LookupEnv` returns: the empty string when the variable is unset. */
  function ValueOf(l: Lookup): (v: string)
    ensures l.Set? ==> v == l.value
    ensures l.Unset? ==> v == ""
  {
    if l.Set? then l.value else ""
  }

  /** The lookups of the four variables the configuration reads. */
  datatype Environment = Environment(
    oauthConsumerKey: Lookup,
    oauthSecret: Lookup,
    dbUsername: Lookup,
    dbPassword: Lookup)

  /** A variable that is set to a non-empty value. */
  predicate Provided(l: Lookup) {
    l.Set? && l.value != ""
  }

  /**
   * The database password after the environment override, as the source
   * has it: the override is guarded by the username lookup, so the
   * password variable is used (even when unset) whenever the username
   * variable is provided, and ignored otherwise.
   */
  function DbPasswordAsWritten(current: string, env: Environment): (p: string)
    ensures Provided(env.dbUsername) ==> p == ValueOf(env.dbPassword)
    ensures !Provided(env.dbUsername) ==> p == current
  {
    var dbUsername, ok := ValueOf(env.dbUsername), env.dbUsername.Set?;
    if |dbUsername| == 0 || !ok then current else ValueOf(env.dbPassword)
  }

  /**
   * The database password after the override the password variable is
   * evidently meant to have, like the username's: it is used exactly when
   * it is provided.
   */
  function DbPasswordResolved(current: string, env: Environment): (p: string)
    ensures Provided(env.dbPassword) ==> p == env.dbPassword.value
    ensures !Provided(env.dbPassword) ==> p == current
  {
    var dbPassword, ok := ValueOf(env.dbPassword), env.dbPassword.Set?;
    if |dbPassword| == 0 || !ok then current else dbPassword
  }

  /**
   * With the username variable provided and the password variable unset,
   * the source replaces the default password by the empty string; the
   * resolved rule keeps the default.
   */
  lemma PasswordGuardCounterexample()
    ensures var env := Environment(Unset, Unset, Set("alice"), Unset);
            DbPasswordAsWritten(DefaultDbPassword, env) == "" &&
            DbPasswordResolved(DefaultDbPassword, env) == DefaultDbPassword
  {
  }

  /** The two rules agree whenever the username guard decides like the password guard. */
  lemma PasswordRulesAgree(current: string, env: Environment)
    requires Provided(env.dbUsername) <==> Provided(env.dbPassword)
    ensures DbPasswordAsWritten(current, env) == DbPasswordResolved(current, env)
  {
  }

  class Config {
    var serverUrl: string
    var port: int
    var sslCertFile: string
    var sslKeyFile: string
    var oauthConsumerKey: string
    var oauthSecret: string
    var osmBaseUrl: string
    var debugLogging: bool
    var dbUsername: string
    var dbPassword: string
    var tokenValidityDuration: string
    var sourceRepoUrl: string
    var maxTasksPerProject: int

    /** `InitDefaultConfig`: zero values except the token validity, the database account and the task limit. */
    constructor InitDefault()
      ensures tokenValidityDuration == DefaultTokenInvalidityDuration
      ensures dbUsername == DefaultDbUsername && dbPassword == DefaultDbPassword
      ensures maxTasksPerProject == DefaultMaxTasksPerProject
      ensures serverUrl == "" && port == 0 && sslCertFile == "" && sslKeyFile == ""
      ensures oauthConsumerKey == "" && oauthSecret == "" && osmBaseUrl == ""
      ensures !debugLogging && sourceRepoUrl == ""
    {
      serverUrl, port, sslCertFile, sslKeyFile := "", 0, "", "";
      oauthConsumerKey, oauthSecret, osmBaseUrl := "", "", "";
      debugLogging, sourceRepoUrl := false, "";
      tokenValidityDuration := DefaultTokenInvalidityDuration;
      dbUsername := DefaultDbUsername;
      dbPassword := DefaultDbPassword;
      maxTasksPerProject := DefaultMaxTasksPerProject;
    }

    /**
     * The environment part of `LoadConfig`: the OAuth key and secret are
     * always replaced (by the empty string when unset); the database
     * username and password are replaced only by a provided value.
     */
    method ApplyEnvironment(env: Environment)
      modifies this
      ensures oauthConsumerKey == ValueOf(env.oauthConsumerKey) && oauthSecret == ValueOf(env.oauthSecret)
      ensures dbUsername == if Provided(env.dbUsername) then env.dbUsername.value else old(dbUsername)
      ensures dbPassword == DbPasswordResolved(old(dbPassword), env)
      ensures serverUrl == old(serverUrl) && port == old(port) && sslCertFile == old(sslCertFile)
      ensures sslKeyFile == old(sslKeyFile) && osmBaseUrl == old(osmBaseUrl) && debugLogging == old(debugLogging)
      ensures tokenValidityDuration == old(tokenValidityDuration) && sourceRepoUrl == old(sourceRepoUrl)
      ensures maxTasksPerProject == old(maxTasksPerProject)
    {
      oauthConsumerKey := ValueOf(env.oauthConsumerKey);
      oauthSecret := ValueOf(env.oauthSecret);

      var username, usernameOk := ValueOf(env.dbUsername), env.dbUsername.Set?;
      if |username| == 0 || !usernameOk {
      } else {
        dbUsername := username;
      }

      var password, passwordOk := ValueOf(env.dbPassword), env.dbPassword.Set?;
      if |password| == 0 || !passwordOk {
      } else {
        dbPassword := password;
      }
    }
  }

  /**
   * `LoadConfig` without the configuration file: the defaults, then the
   * environment.
   */
  method LoadConfig(env: Environment) returns (conf: Config)
    ensures fresh(conf)
    ensures conf.dbUsername == if Provided(env.dbUsername) then env.dbUsername.value else DefaultDbUsername
    ensures conf.dbPassword == if Provided(env.dbPassword) then env.dbPassword.value else DefaultDbPassword
    ensures (Provided(env.dbUsername) <==> Provided(env.dbPassword)) ==>
              conf.dbPassword == DbPasswordAsWritten(DefaultDbPassword, env)
    ensures conf.oauthConsumerKey == ValueOf(env.oauthConsumerKey) && conf.oauthSecret == ValueOf(env.oauthSecret)
    ensures conf.tokenValidityDuration == DefaultTokenInvalidityDuration
    ensures conf.maxTasksPerProject == DefaultMaxTasksPerProject
  {
    conf := new Config.InitDefault();
    conf.ApplyEnvironment(env);
  }

  /**
   * `strings.Split(s, sep)` for a one-character separator: the pieces
   * between separators, built from the last character back.
   */
  function Split(s: string, c: char): (parts: seq<string>)
    ensures |parts| >= 1
    decreases |s|
  {
    if s == [] then [""]
    else
      var rest := Split(s[1..], c);
      if s[0] == c then [""] + rest else [[s[0]] + rest[0]] + rest[1..]
  }

  /** `strings.Join(parts, sep)` for a one-character separator. */
  function Join(parts: seq<string>, c: char): string
    decreases |parts|
  {
    if parts == [] then ""
    else if |parts| == 1 then parts[0]
    else parts[0] + [c] + Join(parts[1..], c)
  }

  /** Joining a piece in front of at least one more puts one separator between them. */
  lemma JoinCons(a: string, rest: seq<string>, c: char)
    requires |rest| >= 1
    ensures Join([a] + rest, c) == a + [c] + Join(rest, c)
  {
    assert ([a] + rest)[1..] == rest;
  }

  /** Growing the first piece by a character grows the joined text by it. */
  lemma JoinExtendHead(x: char, parts: seq<string>, c: char)
    requires |parts| >= 1
    ensures Join([[x] + parts[0]] + parts[1..], c) == [x] + Join(parts, c)
  {
    if |parts| > 1 {
      JoinCons([x] + parts[0], parts[1..], c);
    }
  }

  /** Joining the pieces of a split gives back the string. */
  lemma {:induction false} JoinSplit(s: string, c: char)
    ensures Join(Split(s, c), c) == s
    decreases |s|
  {
    if s != [] {
      var rest := Split(s[1..], c);
      JoinSplit(s[1..], c);
      if s[0] == c {
        JoinCons("", rest, c);
      } else {
        JoinExtendHead(s[0], rest, c);
      }
      assert s == [s[0]] + s[1..];
    }
  }

  /** The first piece is the text before the first separator, or all of it without one. */
  lemma {:induction false} SplitHead(s: string, c: char)
    ensures var i := IndexOf(s, c);
            Split(s, c)[0] == if i == -1 then s else s[..i]
    decreases |s|
  {
    if s != [] && s[0] != c {
      SplitHead(s[1..], c);
      assert s == [s[0]] + s[1..];
    }
  }

  /** The pieces after the first are the pieces of the text after the first separator. */
  lemma {:induction false} SplitTail(s: string, c: char)
    requires c in s
    ensures Split(s, c)[1..] == Split(s[IndexOf(s, c) + 1..], c)
    decreases |s|
  {
    if s[0] != c {
      SplitTail(s[1..], c);
      assert s[1..][IndexOf(s[1..], c) + 1..] == s[IndexOf(s, c) + 1..];
    }
  }

  /** Without a separator there is one piece, the whole string. */
  lemma {:induction false} SplitNoSep(s: string, c: char)
    requires c !in s
    ensures Split(s, c) == [s]
    decreases |s|
  {
    if s != [] {
      SplitNoSep(s[1..], c);
      assert s == [s[0]] + s[1..];
    }
  }

  /** The name of a printed property: the text before the first `:`. */
  function PropertyName(p: string): string
  {
    Split(p, ':')[0]
  }

  /** The value of a printed property: the mask for secrets, otherwise everything after the first `:`. */
  function PropertyValue(p: string): string
  {
    var name := PropertyName(p);
    if name == "DbPassword" || name == "OauthSecret" then Mask
    else Join(Split(p, ':')[1..], ':')
  }

  /** The name of a property is the text before its first `:`, or all of it without one. */
  lemma PropertyNameIsPrefix(p: string)
    ensures var i := IndexOf(p, ':');
            PropertyName(p) == if i == -1 then p else p[..i]
  {
    SplitHead(p, ':');
  }

  /**
   * The value of a property other than the two secrets is everything after
   * its first `:`, colons included, or empty without one; the two secrets
   * show the mask.
   */
  lemma PropertyValueIsRest(p: string)
    ensures var i := IndexOf(p, ':');
            var name := PropertyName(p);
            PropertyValue(p) == if name == "DbPassword" || name == "OauthSecret" then Mask
                                else if i == -1 then "" else p[i + 1..]
  {
    var i := IndexOf(p, ':');
    if i == -1 {
      SplitNoSep(p, ':');
    } else {
      SplitTail(p, ':');
      JoinSplit(p[i + 1..], ':');
    }
  }

  /** `%-*s` with width `w`: `s` followed by spaces up to `w` characters. */
  function PadRight(s: string, w: nat): (r: string)
    ensures |r| == if |s| < w then w else |s|
    ensures r[..|s|] == s
    ensures forall k :: |s| <= k < |r| ==> r[k] == ' '
    decreases w - |s|
  {
    if |s| >= w then s else PadRight(s + " ", w)
  }

  /** One printed line: `"  %-*s = %s"` with width 21. */
  function PropertyLine(p: string): (line: string)
  {
    "  " + PadRight(PropertyName(p), NameWidth) + " = " + PropertyValue(p)
  }

  /**
   * The loop of `PrintConfig` over the already split property list: a
   * header line, then one line per property, in order.
   */
  method FormatConfig(propertyList: seq<string>) returns (lines: seq<string>)
    ensures |lines| == |propertyList| + 1 && lines[0] == "Config:"
    ensures forall k :: 0 <= k < |propertyList| ==> lines[k + 1] == PropertyLine(propertyList[k])
  {
    lines := ["Config:"];
    var i := 0;
    while i < |propertyList|
      invariant 0 <= i <= |propertyList|
      invariant |lines| == i + 1 && lines[0] == "Config:"
      invariant forall k :: 0 <= k < i ==> lines[k + 1] == PropertyLine(propertyList[k])
    {
      var p := propertyList[i];
      var propertyName := PropertyName(p);
      var propertyValue: string;
      if propertyName == "DbPassword" || propertyName == "OauthSecret" {
        propertyValue := Mask;
      } else {
        propertyValue := Join(Split(p, ':')[1..], ':');
      }
      lines := lines + ["  " + PadRight(propertyName, NameWidth) + " = " + propertyValue];
      i := i + 1;
    }
  }
}
