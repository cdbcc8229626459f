/** The DNS probe group (src/recon/dns.rs). */
module Dns {
  import opened Wrappers
  import opened Seqs
  import opened Text
  import opened Probes
  import opened Errors
  import opened Tasks
  import opened Models

  const SpfPrefix := "v=spf1"
  const DmarcPrefix := "v=dmarc1"
  const PolicyPrefix := "p="

  /** `get_mx_records`: the exchange names in answer order, or the resolver error. */
  function GetMxRecords(resolver: Resolver, domain: string): (r: Result<seq<string>, ReconError>)
    ensures r.Ok? <==> resolver.mx(domain).Ok?
    ensures r.Ok? ==> r.value == resolver.mx(domain).value
    ensures r.Err? ==> r.error == Dns(resolver.mx(domain).error)
  {
    match resolver.mx(domain)
    case Ok(names) => Ok(names)
    case Err(e) => Err(Dns(e))
  }

  /** The character-strings of all TXT records, record after record, each one kept whole. */
  function Flatten(records: seq<seq<string>>): seq<string>
    decreases |records|
  {
    if |records| == 0 then [] else records[0] + Flatten(records[1..])
  }

  /** Flattening distributes over concatenation of the answer list. */
  lemma {:induction false} FlattenAppend(a: seq<seq<string>>, b: seq<seq<string>>)
    ensures Flatten(a + b) == Flatten(a) + Flatten(b)
    decreases |a|
  {
    if |a| == 0 {
      assert a + b == b;
    } else {
      assert (a + b)[0] == a[0];
      assert (a + b)[1..] == a[1..] + b;
      FlattenAppend(a[1..], b);
    }
  }

  /** The list has one entry per character-string, so a record split into several strings is not joined. */
  lemma {:induction false} FlattenLength(records: seq<seq<string>>, k: nat)
    requires k < |records|
    ensures |Flatten(records)| >= |records[k]|
    ensures Flatten(records[..k + 1]) == Flatten(records[..k]) + records[k]
  {
    assert records[..k + 1] == records[..k] + [records[k]];
    FlattenAppend(records[..k], [records[k]]);
    assert [records[k]][1..] == [];
    assert records == records[..k + 1] + records[k + 1..];
    FlattenAppend(records[..k + 1], records[k + 1..]);
  }

  /** `get_txt_records`: every character-string of every TXT record, in order. */
  function GetTxtRecords(resolver: Resolver, domain: string): (r: Result<seq<string>, ReconError>)
    ensures r.Ok? <==> resolver.txt(domain).Ok?
    ensures r.Ok? ==> r.value == Flatten(resolver.txt(domain).value)
    ensures r.Err? ==> r.error == Dns(resolver.txt(domain).error)
  {
    match resolver.txt(domain)
    case Ok(records) => Ok(Flatten(records))
    case Err(e) => Err(Dns(e))
  }

  /** The first string whose lowercased form starts with `prefix`, and nothing before it does. */
  function FirstWithPrefix(xs: seq<string>, prefix: string): (r: Option<string>)
    ensures r.None? <==> forall i :: 0 <= i < |xs| ==> !LowerStartsWith(xs[i], prefix)
    ensures r.Some? ==> LowerStartsWith(r.value, prefix)
    ensures r.Some? ==> exists i :: 0 <= i < |xs| && xs[i] == r.value && forall j :: 0 <= j < i ==> !LowerStartsWith(xs[j], prefix)
  {
    Find(xs, s => LowerStartsWith(s, prefix))
  }

  /** The trimmed `;`-separated segments of a DMARC record. */
  function Segments(record: string): seq<string> {
    var parts := Split(record, ';');
    seq(|parts|, i requires 0 <= i < |parts| => Trim(parts[i]))
  }

  /** `extract_dmarc_policy`: the text after `p=` in the first segment that starts with it. */
  function ExtractDmarcPolicy(record: Option<string>): (r: Option<string>)
    ensures record.None? ==> r.None?
    ensures record.Some? ==>
      (r.None? <==> forall i :: 0 <= i < |Segments(record.value)| ==> !LowerStartsWith(Segments(record.value)[i], PolicyPrefix))
    ensures r.Some? ==> record.Some?
    ensures r.Some? ==> var segs := Segments(record.value);
      exists i :: 0 <= i < |segs| && LowerStartsWith(segs[i], PolicyPrefix) && r.value == segs[i][2..]
        && forall j :: 0 <= j < i ==> !LowerStartsWith(segs[j], PolicyPrefix)
  {
    match record
    case None => None
    case Some(rec) =>
      match FirstWithPrefix(Segments(rec), PolicyPrefix)
      case None => None
      case Some(part) => Some(part[|PolicyPrefix|..])
  }

  /** A string with no whitespace at either end is its own trim. */
  lemma TrimUntouched(s: string)
    requires |s| > 0 && !IsWhitespace(s[0]) && !IsWhitespace(s[|s| - 1])
    ensures Trim(s) == s
  {
  }

  /** Trimming drops the one blank after a `;`. */
  lemma TrimAfterBlank(s: string)
    requires |s| > 0 && !IsWhitespace(s[0]) && !IsWhitespace(s[|s| - 1])
    ensures Trim([' '] + s) == s
  {
    assert ([' '] + s)[1..] == s;
  }

  /** Whether a segment is a policy segment depends only on its first two characters. */
  lemma PolicySegment(s: string)
    requires |s| >= 2
    ensures LowerStartsWith(s, PolicyPrefix) <==> LowerChar(s[0]) == 'p' && LowerChar(s[1]) == '='
  {
    assert Lower(s)[..2] == [LowerChar(s[0]), LowerChar(s[1])];
  }

  /** The segments of `a; b; c` when none of the three holds a `;`. */
  lemma SegmentsOfThree(a: string, b: string, c: string)
    requires ';' !in a && ';' !in b && ';' !in c
    ensures Segments(a + "; " + b + "; " + c) == [Trim(a), Trim([' '] + b), Trim([' '] + c)]
  {
    assert a + "; " + b + "; " + c == a + [';'] + (([' '] + b) + [';'] + ([' '] + c));
    SplitWithoutSeparator([' '] + c, ';');
    SplitAtSeparator([' '] + b, ';', [' '] + c);
    SplitAtSeparator(a, ';', ([' '] + b) + [';'] + ([' '] + c));
  }

  /** The segments of `a; b` when neither holds a `;`. */
  lemma SegmentsOfTwo(a: string, b: string)
    requires ';' !in a && ';' !in b
    ensures Segments(a + "; " + b) == [Trim(a), Trim([' '] + b)]
  {
    var s := a + "; " + b;
    assert s == a + [';'] + ([' '] + b);
    SplitWithoutSeparator([' '] + b, ';');
    SplitAtSeparator(a, ';', [' '] + b);
    assert Split(s, ';') == [a, [' '] + b];
  }

  /** A trimmed segment that holds no `;`, so that it survives splitting and trimming unchanged. */
  predicate PlainSegment(s: string) {
    |s| >= 2 && ';' !in s && !IsWhitespace(s[0]) && !IsWhitespace(s[|s| - 1])
  }

  /** The first of three segments that is a policy segment is the second one when `a` is not one. */
  lemma SecondIsFirstPolicy(a: string, b: string, c: string)
    requires |a| >= 2 && |b| >= 2
    requires !(LowerChar(a[0]) == 'p' && LowerChar(a[1]) == '=')
    requires LowerChar(b[0]) == 'p' && LowerChar(b[1]) == '='
    ensures FirstWithPrefix([a, b, c], PolicyPrefix) == Some(b)
  {
    PolicySegment(a);
    PolicySegment(b);
    var xs := [a, b, c];
    assert LowerStartsWith(xs[1], PolicyPrefix);
    var r := FirstWithPrefix(xs, PolicyPrefix);
    var i :| 0 <= i < |xs| && xs[i] == r.value && forall j :: 0 <= j < i ==> !LowerStartsWith(xs[j], PolicyPrefix);
    assert i != 0;
    assert i == 1;
  }

  /** In `a; b; c`, a policy segment `b` after a segment `a` that is not one gives `b`'s value. */
  lemma PolicyInSecondOfThree(a: string, b: string, c: string)
    requires PlainSegment(a) && PlainSegment(b) && PlainSegment(c)
    requires !(LowerChar(a[0]) == 'p' && LowerChar(a[1]) == '=')
    requires LowerChar(b[0]) == 'p' && LowerChar(b[1]) == '='
    ensures ExtractDmarcPolicy(Some(a + "; " + b + "; " + c)) == Some(b[2..])
  {
    assert Segments(a + "; " + b + "; " + c) == [a, b, c] by {
      SegmentsOfThree(a, b, c);
      TrimUntouched(a);
      TrimAfterBlank(b);
      TrimAfterBlank(c);
    }
    SecondIsFirstPolicy(a, b, c);
  }

  /** Two segments neither of which starts with `p=` hold no policy segment. */
  lemma NeitherIsPolicy(a: string, b: string)
    requires |a| >= 2 && |b| >= 2
    requires !(LowerChar(a[0]) == 'p' && LowerChar(a[1]) == '=')
    requires !(LowerChar(b[0]) == 'p' && LowerChar(b[1]) == '=')
    ensures FirstWithPrefix([a, b], PolicyPrefix) == None
  {
    PolicySegment(a);
    PolicySegment(b);
    var segs := [a, b];
    assert forall i :: 0 <= i < |segs| ==> !LowerStartsWith(segs[i], PolicyPrefix);
  }

  /** In `a; b`, when neither segment starts with `p=`, there is no policy. */
  lemma NoPolicyInTwo(a: string, b: string)
    requires PlainSegment(a) && PlainSegment(b)
    requires !(LowerChar(a[0]) == 'p' && LowerChar(a[1]) == '=')
    requires !(LowerChar(b[0]) == 'p' && LowerChar(b[1]) == '=')
    ensures ExtractDmarcPolicy(Some(a + "; " + b)) == None
  {
    assert Segments(a + "; " + b) == [a, b] by {
      SegmentsOfTwo(a, b);
      TrimUntouched(a);
      TrimAfterBlank(b);
    }
    NeitherIsPolicy(a, b);
  }

  /** How the worked example below is put together from its segments. */
  lemma PolicyExampleShape()
    ensures "v=DMARC1; p=reject; rua=mailto:x" == "v=DMARC1" + "; " + "p=reject" + "; " + "rua=mailto:x"
    ensures "v=DMARC1; sp=reject" == "v=DMARC1" + "; " + "sp=reject"
  {
  }

  /** The worked example: `v=DMARC1; p=reject; rua=mailto:x` has policy `reject`. */
  lemma DmarcPolicyOfExample()
    ensures ExtractDmarcPolicy(Some("v=DMARC1; p=reject; rua=mailto:x")) == Some("reject")
  {
    PolicyExampleShape();
    PolicyInSecondOfThree("v=DMARC1", "p=reject", "rua=mailto:x");
  }

  /** An `sp=` segment is not a policy segment: `v=DMARC1; sp=reject` has no policy. */
  lemma SubdomainPolicyIsNotPolicy()
    ensures ExtractDmarcPolicy(Some("v=DMARC1; sp=reject")) == None
  {
    PolicyExampleShape();
    NoPolicyInTwo("v=DMARC1", "sp=reject");
  }

  /** The target of the first CNAME answer, if that answer is a CNAME record. */
  function FirstCnameTarget(answer: Lookup<Record>): Option<string> {
    match answer
    case Ok(records) =>
      if |records| > 0 && records[0].CnameRecord? then Some(records[0].target) else None
    case Err(_) => None
  }

  /** `check_autodiscover`: the CNAME target, else the first address, else nothing; never an error. */
  function CheckAutodiscover(resolver: Resolver, domain: string): (r: Result<Option<string>, ReconError>)
    ensures r.Ok?
    ensures var name := "autodiscover." + domain;
      var c := resolver.cname(name);
      var a := resolver.ip(name);
      if HasAnswer(c) && c.value[0].CnameRecord? then r.value == Some(c.value[0].target)
      else if HasAnswer(a) then r.value == Some(a.value[0])
      else r.value == None
  {
    var name := "autodiscover." + domain;
    match FirstCnameTarget(resolver.cname(name))
    case Some(target) => Ok(Some(target))
    case None =>
      match resolver.ip(name)
      case Ok(addresses) => if |addresses| > 0 then Ok(Some(addresses[0])) else Ok(None)
      case Err(_) => Ok(None)
  }

  /** `check_record_presence`: some address or some CNAME answer exists; lookup errors count as absence. */
  function CheckRecordPresence(resolver: Resolver, name: string): (r: Result<bool, ReconError>)
    ensures r.Ok?
    ensures r.value <==> HasAnswer(resolver.ip(name)) || HasAnswer(resolver.cname(name))
  {
    match resolver.ip(name)
    case Ok(addresses) =>
      if |addresses| > 0 then Ok(true) else CnamePresence(resolver, name)
    case Err(_) => CnamePresence(resolver, name)
  }

  /** The CNAME half of `check_record_presence`. */
  function CnamePresence(resolver: Resolver, name: string): Result<bool, ReconError> {
    match resolver.cname(name)
    case Ok(records) => Ok(|records| > 0)
    case Err(_) => Ok(false)
  }

  /** The five DNS tasks of the group. */
  predicate DnsTasksJoin(failures: JoinFailures) {
    && MxLookup !in failures && TxtLookup !in failures && AutodiscoverCheck !in failures
    && LyncdiscoverCheck !in failures && SipCheck !in failures
  }

  /**
   * `run_dns_checks`: spawns the five lookups, awaits them in order with `?`, and assembles the
   * record. Only a failed MX or TXT lookup, or a task that cannot be joined, fails the group.
   */
  function RunDnsChecks(resolver: Resolver, failures: JoinFailures, domain: string): (r: Result<DnsResults, ReconError>)
    ensures r.Ok? <==> DnsTasksJoin(failures) && resolver.mx(domain).Ok? && resolver.txt(domain).Ok?
    ensures r.Ok? ==> FoundFlagsConsistent(r.value)
    ensures r.Ok? ==> r.value.mxRecords == Some(resolver.mx(domain).value)
    ensures r.Ok? ==> var txt := Flatten(resolver.txt(domain).value);
      && r.value.spfRecord == FirstWithPrefix(txt, SpfPrefix)
      && r.value.dmarcRecord == FirstWithPrefix(txt, DmarcPrefix)
      && r.value.dmarcPolicy == ExtractDmarcPolicy(r.value.dmarcRecord)
    ensures r.Ok? ==>
      && r.value.autodiscoverCnameOrA == CheckAutodiscover(resolver, domain).value
      && r.value.lyncdiscoverPresent == Some(CheckRecordPresence(resolver, "lyncdiscover." + domain).value)
      && r.value.sipCnameOrAPresent == Some(CheckRecordPresence(resolver, "sip." + domain).value)
    ensures r.Ok? ==>
      && r.value.msTxtRecord.None? && r.value.msTxtFound.None?
      && r.value.msAdfsAuthTxtRecord.None? && r.value.msAdfsAuthTxtFound.None?
      && r.value.enterpriseregistrationTxtRecord.None? && r.value.enterpriseregistrationTxtFound.None?
      && r.value.enterpriseenrollmentTxtRecord.None? && r.value.enterpriseenrollmentTxtFound.None?
      && r.value.sipfederationtlsTcpPresent.None? && r.value.sipTlsPresent.None?
    ensures MxLookup in failures ==> r == Err(CheckFailed("MX Lookup", failures[MxLookup]))
  {
    var mx :- JoinOrFail(Await(MxLookup, failures, GetMxRecords(resolver, domain)), "MX Lookup");
    var txt :- JoinOrFail(Await(TxtLookup, failures, GetTxtRecords(resolver, domain)), "TXT Lookup");
    var spf := FirstWithPrefix(txt, SpfPrefix);
    var dmarc := FirstWithPrefix(txt, DmarcPrefix);
    var autodiscover :- JoinOrFail(Await(AutodiscoverCheck, failures, CheckAutodiscover(resolver, domain)), "Autodiscover Check");
    var lync :- JoinOrFail(Await(LyncdiscoverCheck, failures, CheckRecordPresence(resolver, "lyncdiscover." + domain)), "LyncDiscover Check");
    var sip :- JoinOrFail(Await(SipCheck, failures, CheckRecordPresence(resolver, "sip." + domain)), "SIP Check");
    Ok(DnsResults(
      mxRecords := Some(mx),
      mxRecordsFound := Some(|mx| > 0),
      spfRecord := spf,
      spfRecordFound := Some(spf.Some?),
      dmarcRecord := dmarc,
      dmarcRecordFound := Some(dmarc.Some?),
      dmarcPolicy := ExtractDmarcPolicy(dmarc),
      msTxtRecord := None,
      msTxtFound := None,
      msAdfsAuthTxtRecord := None,
      msAdfsAuthTxtFound := None,
      enterpriseregistrationTxtRecord := None,
      enterpriseregistrationTxtFound := None,
      enterpriseenrollmentTxtRecord := None,
      enterpriseenrollmentTxtFound := None,
      autodiscoverCnameOrA := autodiscover,
      lyncdiscoverPresent := Some(lync),
      sipCnameOrAPresent := Some(sip),
      sipfederationtlsTcpPresent := None,
      sipTlsPresent := None))
  }

  /** The five DNS tasks. */
  const DnsOrder: seq<Task> := [MxLookup, TxtLookup, AutodiscoverCheck, LyncdiscoverCheck, SipCheck]

  /** The DNS group's outcome depends only on the joins of its own five tasks. */
  lemma DnsDependsOnOwnTasks(resolver: Resolver, f1: JoinFailures, f2: JoinFailures, domain: string)
    requires AgreeOn(f1, f2, DnsOrder)
    ensures RunDnsChecks(resolver, f1, domain) == RunDnsChecks(resolver, f2, domain)
  {
    assert DnsOrder[0] == MxLookup && DnsOrder[1] == TxtLookup && DnsOrder[2] == AutodiscoverCheck;
    assert DnsOrder[3] == LyncdiscoverCheck && DnsOrder[4] == SipCheck;
    AwaitAgree(MxLookup, f1, f2, GetMxRecords(resolver, domain));
    AwaitAgree(TxtLookup, f1, f2, GetTxtRecords(resolver, domain));
    AwaitAgree(AutodiscoverCheck, f1, f2, CheckAutodiscover(resolver, domain));
    AwaitAgree(LyncdiscoverCheck, f1, f2, CheckRecordPresence(resolver, "lyncdiscover." + domain));
    AwaitAgree(SipCheck, f1, f2, CheckRecordPresence(resolver, "sip." + domain));
  }
}
