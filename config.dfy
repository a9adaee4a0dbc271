/** The pure part of the probe's configuration: the management port and the
    host, user and password taken from the probe's netrc line
    ("machine <host> login <user> password <password>"). */
module ProbeConfig {
  import opened Wrappers
  import opened PyStr

  /** The management interface listens on this port plus the port offset. */
  const BasePort: int := 9990

  /** The three credentials, in the order they are checked. */
  datatype Credential = Host | User | Password

  datatype ConfigError =
    | MalformedNetrc             // the netrc line does not split into six tokens
    | Missing(which: Credential) // the first credential that is empty after stripping

  datatype Config = Config(host: string, port: int, user: string, password: string)

  /** Splits the command output the way `__readConfig` does: strip, then split on single spaces. */
  function NetrcTokens(output: string): (r: seq<string>)
    ensures |r| >= 1 && Join(r) == Strip(output)
    ensures forall k :: 0 <= k < |r| ==> ' ' !in r[k]
  {
    Split(Strip(output))
  }

  /** The credentials in the order they are checked. */
  const CheckOrder: seq<Credential> := [Host, User, Password]

  /** The configuration once the credentials are known: the first blank one, in the
      order host, user, password, is an error. */
  function CheckCredentials(offset: int, host: string, user: string, password: string)
    : Result<Config, ConfigError>
  {
    if host == [] then Failure(Missing(Host))
    else if user == [] then Failure(Missing(User))
    else if password == [] then Failure(Missing(Password))
    else Success(Config(host, BasePort + offset, user, password))
  }

  /** The configuration read from the port offset and the output of the netrc command:
      host, user and password are tokens 1, 3 and 5 of six, each stripped. */
  function ParseConfig(offset: int, output: string): Result<Config, ConfigError> {
    var tokens := NetrcTokens(output);
    if |tokens| != 6 then Failure(MalformedNetrc)
    else CheckCredentials(offset, Strip(tokens[1]), Strip(tokens[3]), Strip(tokens[5]))
  }

  /** The line is reported malformed exactly when it does not split into six tokens;
      a six-token line with a blank credential is reported as that credential. */
  lemma MalformedExactlyWhenNotSixTokens(offset: int, output: string)
    ensures ParseConfig(offset, output) == Failure(MalformedNetrc)
      <==> |NetrcTokens(output)| != 6
  {
  }

  /** Parsing succeeds exactly when there are six tokens and tokens 1, 3 and 5 are not
      blank; the configuration then holds those tokens, stripped, and port 9990 + offset. */
  lemma ParseConfigSucceeds(offset: int, output: string)
    ensures var tokens := NetrcTokens(output);
      ParseConfig(offset, output).Success? <==>
        |tokens| == 6
        && (exists k :: 0 <= k < |tokens[1]| && !IsSpace(tokens[1][k]))
        && (exists k :: 0 <= k < |tokens[3]| && !IsSpace(tokens[3][k]))
        && (exists k :: 0 <= k < |tokens[5]| && !IsSpace(tokens[5][k]))
    ensures var tokens := NetrcTokens(output);
      ParseConfig(offset, output).Success? ==>
        ParseConfig(offset, output).value
          == Config(Strip(tokens[1]), BasePort + offset, Strip(tokens[3]), Strip(tokens[5]))
  {
    var tokens := NetrcTokens(output);
    if |tokens| == 6 {
      StripEmpty(tokens[1]);
      StripEmpty(tokens[3]);
      StripEmpty(tokens[5]);
    }
  }

  /** A failure names the first blank credential, in the order host, user, password. */
  lemma ParseConfigReportsFirstMissing(offset: int, output: string, c: Credential)
    requires ParseConfig(offset, output) == Failure(Missing(c))
    ensures var tokens := NetrcTokens(output);
      |tokens| == 6
      && (c == Host <==> Strip(tokens[1]) == [])
      && (c == User <==> Strip(tokens[1]) != [] && Strip(tokens[3]) == [])
      && (c == Password <==> Strip(tokens[1]) != [] && Strip(tokens[3]) != [] && Strip(tokens[5]) == [])
  {
  }

  /** A string without any whitespace character. */
  predicate Word(s: string) {
    s != [] && forall k :: 0 <= k < |s| ==> !IsSpace(s[k])
  }

  /** A word has no space in it and is its own stripped form. */
  lemma WordIsStripped(s: string)
    requires Word(s)
    ensures ' ' !in s && Strip(s) == s
  {
  }

  /** A well-formed netrc line, with the whitespace the shell prints after it, yields exactly
      its host, user and password, and the port 9990 + offset. */
  lemma {:induction false} ParseWellFormedLine(offset: int, tokens: seq<string>, ws: string)
    requires |tokens| == 6
    requires forall k :: 0 <= k < 6 ==> Word(tokens[k])
    requires forall k :: 0 <= k < |ws| ==> IsSpace(ws[k])
    ensures ParseConfig(offset, Join(tokens) + ws)
      == Success(Config(tokens[1], BasePort + offset, tokens[3], tokens[5]))
  {
    forall k | 0 <= k < 6 ensures ' ' !in tokens[k] && Strip(tokens[k]) == tokens[k] {
      WordIsStripped(tokens[k]);
    }
    var line := Join(tokens);
    JoinEnds(tokens);
    StripTrailing(line, ws);
    SplitJoin(tokens);
  }
}
