/**
 * The resource model: environments, clusters, their shared status machine,
 * the error kinds of the core, and the pure helpers of entities/env.go.
 */
module Entities {
  import opened Wrappers
  import opened Strings

  /** Creating: in flight or interrupted; Created: steady state; Removing: teardown started. */
  datatype Status = Creating | Created | Removing

  datatype SSHHostKey = SSHHostKey(algorithm: string, fingerprint: string)

  /** The normalised repository reference an environment is built from. */
  datatype ResolvedEnvRepository = ResolvedEnvRepository(
    name: string,
    owner: string,
    explicitOwner: bool,
    gitURL: string,
    gitHTTPURL: string,
    languagesUsed: seq<string>)

  /**
   * The fields of an environment that the provisioning backend owns: it may
   * rewrite them during any call it receives, even one that fails.
   */
  datatype EnvInfrastructure = EnvInfrastructure(
    infrastructureJSON: string,
    instancePublicIPAddress: string,
    sshHostKeys: seq<SSHHostKey>,
    sshKeyPairPEMContent: string,
    openedPorts: map<string, bool>,
    additionalPropertiesJSON: string)

  datatype Env = Env(
    id: string,
    name: string,
    instanceType: string,
    resolvedRepository: ResolvedEnvRepository,
    status: Status,
    createdAtTimestamp: int,
    infrastructure: EnvInfrastructure)

  datatype Cluster = Cluster(
    name: string,
    instanceType: string,
    isDefault: bool,
    infrastructureJSON: string,
    status: Status)

  /** Every error the core produces or passes on. */
  datatype Error =
    | YoloNotInstalled
    | ClusterNotExists(clusterName: string)
    | EnvNotExists(clusterName: string, envName: string)
    | InvalidPort(invalidPort: string)
    | ReservedPort(reservedPort: string)
    | InvalidHostKey(hostKey: string)
    | InitRemovingEnv(envName: string)
    | EditRemovingEnv(envName: string)
    | EditCreatingEnv(envName: string)
    | OpenPortRemovingEnv(envName: string)
    | OpenPortCreatingEnv(envName: string)
    | ClosePortRemovingEnv(envName: string)
    | ClosePortCreatingEnv(envName: string)
    | UninstallExistingEnvs
    | InvalidGitHubURL
      /** The opaque failure of the external call made at position `call` of the trace. */
    | ExternalFailure(call: nat)

  const EmptyInfrastructure := EnvInfrastructure("", "", [], "", map[], "")

  /**
   * A new environment; `id` and `now` stand for uuid.NewString() and
   * time.Now().Unix(), which are outside the model.
   */
  function NewEnv(envName: string, instanceType: string, resolvedRepository: ResolvedEnvRepository,
                  id: string, now: int): (e: Env)
    ensures e.status == Creating && e.id == id && e.createdAtTimestamp == now
    ensures e.name == envName && e.instanceType == instanceType && e.resolvedRepository == resolvedRepository
    ensures e.infrastructure.sshHostKeys == [] && e.infrastructure.openedPorts == map[]
  {
    Env(id, envName, instanceType, resolvedRepository, Creating, now, EmptyInfrastructure)
  }

  /**
   * A new cluster. entities/cluster.go is not part of this model: a fresh
   * cluster is taken to start in Creating with no infrastructure.
   */
  function NewCluster(name: string, instanceType: string, isDefault: bool): (c: Cluster)
    ensures c.status == Creating && c.name == name && c.isDefault == isDefault
  {
    Cluster(name, instanceType, isDefault, "", Creating)
  }

  /** The environment name of a repository: `owner/name`. */
  function BuildEnvNameFromResolvedRepo(repo: ResolvedEnvRepository): (n: string)
    ensures |n| == |repo.owner| + 1 + |repo.name|
  {
    repo.owner + "/" + repo.name
  }

  /** Two repositories whose owners hold no "/" get the same environment name only if they coincide in owner and name. */
  lemma EnvNameInjective(a: ResolvedEnvRepository, b: ResolvedEnvRepository)
    requires '/' !in a.owner && '/' !in b.owner
    requires BuildEnvNameFromResolvedRepo(a) == BuildEnvNameFromResolvedRepo(b)
    ensures a.owner == b.owner && a.name == b.name
  {
    var n := BuildEnvNameFromResolvedRepo(a);
    assert n == a.owner + ['/'] + a.name == b.owner + ['/'] + b.name;
    SplitAfterSeparator(a.owner, '/', a.name);
    SplitAfterSeparator(b.owner, '/', b.name);
    assert a.owner == Split(n, '/')[0] == b.owner;
    assert n[|a.owner| + 1..] == a.name;
    assert n[|b.owner| + 1..] == b.name;
  }

  /** The provider-side key-pair name: "yolo-" + slug + "-key-pair", with the slug function (slug.Make) given. */
  function GetSSHKeyPairName(slug: string -> string, e: Env): (n: string)
    ensures |n| == 5 + |slug(e.name)| + 9
    ensures n[..5] == "yolo-" && n[|n| - 9..] == "-key-pair"
  {
    "yolo-" + slug(e.name) + "-key-pair"
  }

  /** Environments whose names have different slugs get different key-pair names. */
  lemma KeyPairNameDeterminesSlug(slug: string -> string, a: Env, b: Env)
    requires GetSSHKeyPairName(slug, a) == GetSSHKeyPairName(slug, b)
    ensures slug(a.name) == slug(b.name)
  {
    var n := GetSSHKeyPairName(slug, a);
    assert slug(a.name) == n[5..|n| - 9];
    assert slug(b.name) == n[5..|n| - 9];
  }

  // ---------------------------------------------------------------------------
  // SSH host keys

  /** The lines of a host-keys text: the trimmed text split on newlines. */
  function HostKeyLines(content: string): seq<string> {
    Split(TrimSpace(content), '\n')
  }

  /** The space-separated fields of one trimmed line. */
  function HostKeyFields(line: string): seq<string> {
    Split(TrimSpace(line), ' ')
  }

  /** The fields of every line, in order. */
  function FieldsOf(lines: seq<string>): (f: seq<seq<string>>)
    ensures |f| == |lines| && forall i :: 0 <= i < |lines| ==> f[i] == HostKeyFields(lines[i])
  {
    seq(|lines|, i requires 0 <= i < |lines| => HostKeyFields(lines[i]))
  }

  /** A line whose fields are not exactly three. */
  predicate Malformed(fields: seq<string>) {
    |fields| != 3
  }

  /** The (algorithm, fingerprint) pair of a well-formed line; the comment is dropped. */
  function KeyOf(fields: seq<string>): SSHHostKey
    requires !Malformed(fields)
  {
    SSHHostKey(fields[0], fields[1])
  }

  /**
   * Parsing lines, given the fields of each: one pair per line, or the first
   * malformed line, reported as it stands.
   */
  function ParseHostKeyLines(lines: seq<string>, fields: seq<seq<string>>): (r: Result<seq<SSHHostKey>, Error>)
    requires |fields| == |lines|
    ensures r.Success? <==> forall i :: 0 <= i < |lines| ==> !Malformed(fields[i])
    ensures r.Success? ==> |r.value| == |lines|
    ensures r.Success? ==> forall i :: 0 <= i < |lines| ==> !Malformed(fields[i]) && r.value[i] == KeyOf(fields[i])
    ensures r.Failure? ==>
      (exists k :: 0 <= k < |lines| && Malformed(fields[k]) && r.error == InvalidHostKey(lines[k])
         && forall j :: 0 <= j < k ==> !Malformed(fields[j]))
  {
    if lines == [] then Success([])
    else if Malformed(fields[0]) then Failure(InvalidHostKey(lines[0]))
    else
      var rest := ParseHostKeyLines(lines[1..], fields[1..]);
      match rest
      case Failure(e) =>
        ghost var k :| 0 <= k < |lines[1..]| && Malformed(fields[1..][k]) && e == InvalidHostKey(lines[1..][k])
          && forall j :: 0 <= j < k ==> !Malformed(fields[1..][j]);
        assert Malformed(fields[k + 1]) && e == InvalidHostKey(lines[k + 1]);
        assert forall j :: 0 <= j < k + 1 ==> !Malformed(fields[j]) by {
          forall j | 0 <= j < k + 1 ensures !Malformed(fields[j]) {
            if j > 0 { assert fields[j] == fields[1..][j - 1]; }
          }
        }
        Failure(e)
      case Success(keys) =>
        assert forall j :: 1 <= j < |lines| ==> fields[j] == fields[1..][j - 1];
        Success([KeyOf(fields[0])] + keys)
  }

  /** The error reported is the first malformed line. */
  lemma FirstMalformedReported(lines: seq<string>, fields: seq<seq<string>>, i: nat)
    requires |fields| == |lines| && i < |lines| && Malformed(fields[i])
    requires forall j :: 0 <= j < i ==> !Malformed(fields[j])
    ensures ParseHostKeyLines(lines, fields) == Failure(InvalidHostKey(lines[i]))
  {
    var r := ParseHostKeyLines(lines, fields);
    var k :| 0 <= k < |lines| && Malformed(fields[k]) && r.error == InvalidHostKey(lines[k])
      && forall j :: 0 <= j < k ==> !Malformed(fields[j]);
    assert k == i;
  }

  /** Lines that are all well formed parse to their pairs, in order. */
  lemma AllParsed(lines: seq<string>, fields: seq<seq<string>>, keys: seq<SSHHostKey>)
    requires |fields| == |lines| == |keys|
    requires forall j :: 0 <= j < |lines| ==> !Malformed(fields[j]) && keys[j] == KeyOf(fields[j])
    ensures ParseHostKeyLines(lines, fields) == Success(keys)
  {
    var r := ParseHostKeyLines(lines, fields);
    assert r.Success?;
    assert r.value == keys;
  }

  /** What ParseSSHHostKeys computes from a host-keys text. */
  function HostKeys(content: string): Result<seq<SSHHostKey>, Error> {
    var lines := HostKeyLines(content);
    ParseHostKeyLines(lines, FieldsOf(lines))
  }

  /** ParseSSHHostKeys: the loop of entities/env.go, which stops at the first malformed line. */
  method ParseSSHHostKeys(hostKeysContent: string) returns (r: Result<seq<SSHHostKey>, Error>)
    ensures r == HostKeys(hostKeysContent)
  {
    var hostKeys := HostKeyLines(hostKeysContent);
    ghost var fields := FieldsOf(hostKeys);
    var parsedHostKeys: seq<SSHHostKey> := [];
    var i := 0;
    while i < |hostKeys|
      invariant 0 <= i <= |hostKeys|
      invariant forall j :: 0 <= j < i ==> !Malformed(fields[j])
      invariant |parsedHostKeys| == i
      invariant forall j :: 0 <= j < i ==> parsedHostKeys[j] == KeyOf(fields[j])
    {
      var hostKeyComponents := HostKeyFields(hostKeys[i]);
      assert hostKeyComponents == fields[i];
      if |hostKeyComponents| != 3 {
        FirstMalformedReported(hostKeys, fields, i);
        return Failure(InvalidHostKey(hostKeys[i]));
      }
      parsedHostKeys := parsedHostKeys + [SSHHostKey(hostKeyComponents[0], hostKeyComponents[1])];
      i := i + 1;
    }
    AllParsed(hostKeys, fields, parsedHostKeys);
    r := Success(parsedHostKeys);
  }

  /** Empty or blank input is one empty line with one field, so it is rejected. */
  lemma BlankHostKeysRejected(content: string)
    requires forall i :: 0 <= i < |content| ==> IsSpace(content[i])
    ensures HostKeys(content) == Failure(InvalidHostKey(""))
  {
    TrimSpaceBlank(content);
    assert HostKeyLines(content) == [""];
    assert HostKeyFields("") == [""];
  }

  /** A text with no white space at all is one line of one field, so it is rejected with that line. */
  lemma SingleTokenRejected(content: string)
    requires forall i :: 0 <= i < |content| ==> !IsSpace(content[i])
    ensures HostKeys(content) == Failure(InvalidHostKey(content))
  {
    TrimSpaceNoop(content);
    SplitNoSeparator(content, '\n');
    SplitNoSeparator(content, ' ');
    assert HostKeyLines(content) == [content];
  }

  /** One `algorithm fingerprint comment` line as ssh-keyscan prints it. */
  datatype HostKeyLine = HostKeyLine(algorithm: string, fingerprint: string, comment: string)

  predicate Token(s: string) {
    |s| > 0 && forall i :: 0 <= i < |s| ==> !IsSpace(s[i])
  }

  predicate WellFormedLine(l: HostKeyLine) {
    Token(l.algorithm) && Token(l.fingerprint) && Token(l.comment)
  }

  function FormatLine(l: HostKeyLine): string {
    l.algorithm + " " + l.fingerprint + " " + l.comment
  }

  /** The text of several host-key lines, one per line. */
  function FormatHostKeys(ls: seq<HostKeyLine>): string
    requires |ls| >= 1
  {
    Join(seq(|ls|, i requires 0 <= i < |ls| => FormatLine(ls[i])), '\n')
  }

  lemma FormatLineFields(l: HostKeyLine)
    requires WellFormedLine(l)
    ensures TrimSpace(FormatLine(l)) == FormatLine(l)
    ensures '\n' !in FormatLine(l)
    ensures HostKeyFields(FormatLine(l)) == [l.algorithm, l.fingerprint, l.comment]
  {
    FormatLineTrimmed(l);
    FormatLineSpaces(l);
    assert IsSpace('\n');
    FormatLineSplit(l);
  }

  /** A formatted line neither starts nor ends with white space. */
  lemma FormatLineTrimmed(l: HostKeyLine)
    requires WellFormedLine(l)
    ensures TrimSpace(FormatLine(l)) == FormatLine(l)
  {
    var s := FormatLine(l);
    assert s[0] == l.algorithm[0];
    assert s[|s| - 1] == l.comment[|l.comment| - 1];
    TrimSpaceNoop(s);
  }

  /** The only white space in a formatted line is the two separating spaces. */
  lemma FormatLineSpaces(l: HostKeyLine)
    requires WellFormedLine(l)
    ensures forall c :: c in FormatLine(l) ==> !IsSpace(c) || c == ' '
  {
    forall c | c in FormatLine(l) ensures !IsSpace(c) || c == ' ' {
      assert c in l.algorithm || c == ' ' || c in l.fingerprint || c in l.comment;
    }
  }

  /** A formatted line splits on spaces into its three parts. */
  lemma FormatLineSplit(l: HostKeyLine)
    requires WellFormedLine(l)
    ensures Split(FormatLine(l), ' ') == [l.algorithm, l.fingerprint, l.comment]
  {
    assert IsSpace(' ');
    assert ' ' !in l.algorithm && ' ' !in l.fingerprint && ' ' !in l.comment;
    SplitNoSeparator(l.comment, ' ');
    SplitAfterSeparator(l.fingerprint, ' ', l.comment);
    assert FormatLine(l) == l.algorithm + [' '] + (l.fingerprint + [' '] + l.comment);
    SplitAfterSeparator(l.algorithm, ' ', l.fingerprint + [' '] + l.comment);
  }

  /** The formatted text of well-formed lines splits back into those lines. */
  lemma FormattedLines(ls: seq<HostKeyLine>)
    requires |ls| >= 1 && forall i :: 0 <= i < |ls| ==> WellFormedLine(ls[i])
    ensures HostKeyLines(FormatHostKeys(ls)) == seq(|ls|, i requires 0 <= i < |ls| => FormatLine(ls[i]))
  {
    var lines := seq(|ls|, i requires 0 <= i < |ls| => FormatLine(ls[i]));
    forall i | 0 <= i < |ls| ensures '\n' !in lines[i] {
      FormatLineFields(ls[i]);
    }
    var text := FormatHostKeys(ls);
    JoinFirst(lines, '\n');
    JoinLast(lines, '\n');
    assert lines[0][0] == ls[0].algorithm[0];
    var last := ls[|ls| - 1];
    assert lines[|ls| - 1][|lines[|ls| - 1]| - 1] == last.comment[|last.comment| - 1];
    TrimSpaceNoop(text);
    SplitJoin(lines, '\n');
  }

  /** Round trip: well-formed lines parse back to their (algorithm, fingerprint) pairs, in order, comments dropped. */
  lemma HostKeysRoundTrip(ls: seq<HostKeyLine>)
    requires |ls| >= 1 && forall i :: 0 <= i < |ls| ==> WellFormedLine(ls[i])
    ensures HostKeys(FormatHostKeys(ls)) ==
      Success(seq(|ls|, i requires 0 <= i < |ls| => SSHHostKey(ls[i].algorithm, ls[i].fingerprint)))
  {
    FormattedLines(ls);
    var lines := HostKeyLines(FormatHostKeys(ls));
    var fields := FieldsOf(lines);
    var keys := seq(|ls|, i requires 0 <= i < |ls| => SSHHostKey(ls[i].algorithm, ls[i].fingerprint));
    forall i | 0 <= i < |ls| ensures !Malformed(fields[i]) && keys[i] == KeyOf(fields[i]) {
      FormatLineFields(ls[i]);
    }
    AllParsed(lines, fields, keys);
  }

  // ---------------------------------------------------------------------------
  // Ports

  predicate IsDigit(c: char) {
    '0' <= c <= '9'
  }

  predicate AllDigits(s: string) {
    forall i :: 0 <= i < |s| ==> IsDigit(s[i])
  }

  function DecimalValue(digits: string): nat
    requires AllDigits(digits)
  {
    if |digits| == 0 then 0
    else
      assert IsDigit(digits[|digits| - 1]);
      DecimalValue(digits[..|digits| - 1]) * 10 + (digits[|digits| - 1] as int - '0' as int)
  }

  /**
   * strconv.Atoi on a 64-bit platform: an optional sign, then one or more
   * decimal digits, within the range of int64.
   */
  function Atoi(s: string): Option<int> {
    if |s| == 0 then None
    else
      var digits := if s[0] == '+' || s[0] == '-' then s[1..] else s;
      if |digits| == 0 || !AllDigits(digits) then None
      else
        var v: int := if s[0] == '-' then 0 - DecimalValue(digits) as int else DecimalValue(digits);
        if v < -0x8000_0000_0000_0000 || v > 0x7FFF_FFFF_FFFF_FFFF then None else Some(v)
  }

  /** The format and range test of CheckPortValidity. */
  predicate ValidPort(port: string) {
    Atoi(port).Some? && 1 <= Atoi(port).value <= 65535
  }

  /**
   * CheckPortValidity: format and range first, then exact string equality
   * with each reserved port.
   */
  method CheckPortValidity(port: string, reservedPorts: seq<string>) returns (err: Option<Error>)
    ensures err == Some(InvalidPort(port)) <==> !ValidPort(port)
    ensures err == Some(ReservedPort(port)) <==> ValidPort(port) && port in reservedPorts
    ensures err == None <==> ValidPort(port) && port !in reservedPorts
  {
    var portAsInt := Atoi(port);
    var valid := portAsInt.Some? && portAsInt.value >= 1 && portAsInt.value <= 65535;
    if !valid {
      return Some(InvalidPort(port));
    }
    for i := 0 to |reservedPorts|
      invariant forall j :: 0 <= j < i ==> reservedPorts[j] != port
    {
      if reservedPorts[i] == port {
        return Some(ReservedPort(port));
      }
    }
    return None;
  }

  /** The ports of the reservation list whose numeric value is that of `port`. */
  predicate ReservedByValue(port: string, reservedPorts: seq<string>) {
    exists i :: 0 <= i < |reservedPorts| && Atoi(reservedPorts[i]) == Atoi(port)
  }

  /**
   * The reservation test by numeric value: a valid port is refused when any
   * reserved entry denotes the same number, however it is spelled.
   */
  method CheckPortValidityByValue(port: string, reservedPorts: seq<string>) returns (err: Option<Error>)
    ensures err == Some(InvalidPort(port)) <==> !ValidPort(port)
    ensures err == Some(ReservedPort(port)) <==> ValidPort(port) && ReservedByValue(port, reservedPorts)
    ensures err == None <==> ValidPort(port) && !ReservedByValue(port, reservedPorts)
  {
    var portAsInt := Atoi(port);
    var valid := portAsInt.Some? && portAsInt.value >= 1 && portAsInt.value <= 65535;
    if !valid {
      return Some(InvalidPort(port));
    }
    for i := 0 to |reservedPorts|
      invariant forall j :: 0 <= j < i ==> Atoi(reservedPorts[j]) != portAsInt
    {
      if Atoi(reservedPorts[i]) == portAsInt {
        return Some(ReservedPort(port));
      }
    }
    return None;
  }

  /**
   * The exact-string comparison lets "022" through although "22" is reserved:
   * both denote the port 22.
   */
  lemma LeadingZeroBypassesReservation()
    ensures ValidPort("022") && "022" !in ["22"] && Atoi("022") == Atoi("22") == Some(22)
    ensures ReservedByValue("022", ["22"])
  {
    assert DecimalValue("02") == 2 by { assert "02"[..1] == "0"; assert "0"[..0] == ""; }
    assert DecimalValue("022") == 22 by { assert "022"[..2] == "02"; }
    assert DecimalValue("22") == 22 by { assert "22"[..1] == "2"; assert "2"[..0] == ""; }
    assert "022"[0] != "22"[0];
    assert Atoi(["22"][0]) == Atoi("022");
  }

  /** The boundaries of the range: 1 and 65535 are valid, 0 and 65536 are not. */
  lemma PortBoundaries()
    ensures ValidPort("1") && ValidPort("65535")
    ensures !ValidPort("0") && !ValidPort("65536")
    ensures !ValidPort("invalid_port")
  {
    assert DecimalValue("1") == 1 by { assert "1"[..0] == ""; }
    assert DecimalValue("0") == 0 by { assert "0"[..0] == ""; }
    assert DecimalValue("65535") == 65535 by {
      assert "65535"[..4] == "6553"; assert "6553"[..3] == "655"; assert "655"[..2] == "65";
      assert "65"[..1] == "6"; assert "6"[..0] == "";
    }
    assert DecimalValue("65536") == 65536 by {
      assert "65536"[..4] == "6553"; assert "6553"[..3] == "655"; assert "655"[..2] == "65";
      assert "65"[..1] == "6"; assert "6"[..0] == "";
    }
    var bad := "invalid_port";
    assert bad[0] == 'i';
    assert !AllDigits(bad) by { assert !IsDigit(bad[0]); }
  }
}
