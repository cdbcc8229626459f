/** The tenant realm probe and its string-search XML reading (src/recon/tenant.rs). */
module Tenant {
  import opened Wrappers
  import opened Text
  import opened Probes
  import opened Errors
  import opened Models
  import opened Config

  function StartTag(tag: string): string {
    "<" + tag + ">"
  }

  function EndTag(tag: string): string {
    "</" + tag + ">"
  }

  /** The text of `rest` before the first `end`, absent when `rest` has no `end`. */
  function ValueBefore(rest: string, end: string): (r: Option<string>)
    ensures r.None? <==> !Contains(rest, end)
    ensures r.Some? ==> |r.value| <= |rest| && r.value == rest[..|r.value|] && IsFirstOccurrence(rest, end, |r.value|)
  {
    match IndexOf(rest, end)
    case None => None
    case Some(j) => Some(rest[..j])
  }

  /**
   * `extract_xml_tag_value`: the text between the first `<tag>` and the first `</tag>` after it.
   * No XML is parsed: nesting, attributes, comments and entities are not understood.
   */
  function ExtractXmlTagValue(xml: string, tag: string): (r: Option<string>)
    ensures !Contains(xml, StartTag(tag)) ==> r.None?
    ensures r.Some? ==>
      exists i :: IsFirstOccurrence(xml, StartTag(tag), i) &&
        var vs := i + |StartTag(tag)|;
        && vs + |r.value| <= |xml|
        && xml[vs..vs + |r.value|] == r.value
        && IsFirstOccurrence(xml[vs..], EndTag(tag), |r.value|)
  {
    match IndexOf(xml, StartTag(tag))
    case None => None
    case Some(i) => ValueBefore(xml[i + |StartTag(tag)|..], EndTag(tag))
  }

  /** Only one index can be the first occurrence. */
  lemma FirstOccurrenceUnique(s: string, pat: string, i: int, j: int)
    requires IsFirstOccurrence(s, pat, i) && IsFirstOccurrence(s, pat, j)
    ensures i == j
  {
  }

  /** A first occurrence is what `IndexOf` finds. */
  lemma IndexOfFinds(s: string, pat: string, i: int)
    requires IsFirstOccurrence(s, pat, i)
    ensures IndexOf(s, pat) == Some(i)
  {
    assert Contains(s, pat);
    FirstOccurrenceUnique(s, pat, IndexOf(s, pat).value, i);
  }

  /** Once the start tag is found, a value is found exactly when an end tag follows it. */
  lemma ExtractPresentIffEnd(xml: string, tag: string, i: nat)
    requires IsFirstOccurrence(xml, StartTag(tag), i)
    ensures ExtractXmlTagValue(xml, tag).Some? <==> Contains(xml[i + |StartTag(tag)|..], EndTag(tag))
  {
    IndexOfFinds(xml, StartTag(tag), i);
  }

  /** Neither tag of `tag` can overlap itself when `tag` has no `<`: `<` occurs only first. */
  lemma TagsDoNotOverlap(tag: string)
    requires '<' !in tag
    ensures forall m :: 1 <= m < |StartTag(tag)| ==> StartTag(tag)[m] != StartTag(tag)[0]
    ensures forall m :: 1 <= m < |EndTag(tag)| ==> EndTag(tag)[m] != EndTag(tag)[0]
  {
    forall m | 1 <= m < |StartTag(tag)|
      ensures StartTag(tag)[m] != '<'
    {
      if m <= |tag| {
        assert StartTag(tag)[m] == tag[m - 1];
      }
    }
    forall m | 2 <= m < |EndTag(tag)|
      ensures EndTag(tag)[m] != '<'
    {
      if m <= |tag| + 1 {
        assert EndTag(tag)[m] == tag[m - 2];
      }
    }
  }

  /** Nothing before the first occurrence of a pattern contains it. */
  lemma NothingBeforeFirst(s: string, pat: string, j: int)
    requires |pat| > 0 && IsFirstOccurrence(s, pat, j)
    ensures !Contains(s[..j], pat)
  {
    forall k | 0 <= k <= j
      ensures !OccursAt(s[..j], pat, k)
    {
      if k + |pat| <= j {
        assert s[..j][k..k + |pat|] == s[k..k + |pat|];
        assert !OccursAt(s, pat, k);
      }
    }
  }

  /** A non-overlapping pattern written after text that lacks it is found right there. */
  lemma FoundAfter(a: string, pat: string, b: string)
    requires |pat| > 0
    requires forall m :: 1 <= m < |pat| ==> pat[m] != pat[0]
    requires !Contains(a, pat)
    ensures IndexOf(a + pat + b, pat) == Some(|a|)
  {
    assert a + pat + b == a + (pat + b);
    assert StartsWith(pat + b, pat);
    FirstOccurrenceAfter(a, pat, pat + b);
    IndexOfFinds(a + pat + b, pat, |a|);
  }

  /** The value found never holds the end tag: extraction stops at the first one. */
  lemma ValueHasNoEndTag(xml: string, tag: string)
    requires ExtractXmlTagValue(xml, tag).Some?
    ensures !Contains(ExtractXmlTagValue(xml, tag).value, EndTag(tag))
  {
    var v := ExtractXmlTagValue(xml, tag).value;
    var i :| IsFirstOccurrence(xml, StartTag(tag), i) &&
      var vs := i + |StartTag(tag)|;
      && vs + |v| <= |xml|
      && xml[vs..vs + |v|] == v
      && IsFirstOccurrence(xml[vs..], EndTag(tag), |v|);
    var rest := xml[i + |StartTag(tag)|..];
    NothingBeforeFirst(rest, EndTag(tag), |v|);
    assert rest[..|v|] == v;
  }

  /** A value written before a non-overlapping end marker it lacks is read back up to that marker. */
  lemma ValueBeforeWritten(v: string, end: string, post: string)
    requires |end| > 0 && forall m :: 1 <= m < |end| ==> end[m] != end[0]
    requires !Contains(v, end)
    ensures ValueBefore(v + end + post, end) == Some(v)
  {
    FoundAfter(v, end, post);
    assert (v + end + post)[..|v|] == v;
  }

  /**
   * Round trip: a value written between its tags is read back, provided nothing before the start
   * tag contains it, the value holds no end tag, and the tag name has no `<`.
   */
  lemma ExtractWrittenValue(pre: string, tag: string, v: string, post: string)
    requires '<' !in tag
    requires !Contains(pre, StartTag(tag))
    requires !Contains(v, EndTag(tag))
    ensures ExtractXmlTagValue(pre + StartTag(tag) + v + EndTag(tag) + post, tag) == Some(v)
  {
    var start, end := StartTag(tag), EndTag(tag);
    var rest := v + end + post;
    var xml := pre + start + rest;
    assert pre + start + v + end + post == xml;
    TagsDoNotOverlap(tag);
    FoundAfter(pre, start, rest);
    assert xml[|pre| + |start|..] == rest;
    ValueBeforeWritten(v, end, post);
  }

  /** A start tag with no end tag after it yields nothing. */
  lemma UnclosedTagIsAbsent(pre: string, tag: string, rest: string)
    requires '<' !in tag
    requires !Contains(pre, StartTag(tag))
    requires !Contains(rest, EndTag(tag))
    ensures ExtractXmlTagValue(pre + StartTag(tag) + rest, tag) == None
  {
    var start := StartTag(tag);
    var xml := pre + start + rest;
    TagsDoNotOverlap(tag);
    FoundAfter(pre, start, rest);
    assert xml[|pre| + |start|..] == rest;
  }

  /** The GetUserRealm query for a placeholder user of the domain, asking for XML. */
  function RealmUrl(domain: string, cfg: CloudConfig): string {
    cfg.userRealmEndpoint + "?login=recon@" + domain + ".&xml=1"
  }

  /**
   * `get_federation_info`: queries GetUserRealm and reads two tags of the reply. A transport error,
   * a non-2xx status and an unreadable body are errors; otherwise the record is always marked
   * federated, a missing `NameSpaceType` reads as `Unknown`, and the URL fields stay empty.
   */
  function GetFederationInfo(domain: string, cfg: CloudConfig, http: Http): (r: Result<FederationInfo, ReconError>)
    ensures var o := http(RealmUrl(domain, cfg));
      && (o.TransportError? ==> r == Err(Network(o.fault)))
      && (o.Response? && !IsSuccess(o.status) ==> r == Err(UnexpectedApiResponse("GetUserRealm", o.status, ErrorBody(o.body))))
      && (o.Response? && IsSuccess(o.status) && o.body.Err? ==> r == Err(Network(o.body.error)))
    ensures var o := http(RealmUrl(domain, cfg));
      r.Ok? <==> o.Response? && IsSuccess(o.status) && o.body.Ok?
    ensures r.Ok? ==> var body := http(RealmUrl(domain, cfg)).body.value;
      && r.value.isFederated
      && r.value.nameSpaceType == Some(ExtractXmlTagValue(body, "NameSpaceType").UnwrapOr("Unknown"))
      && r.value.federationBrandName == ExtractXmlTagValue(body, "FederationBrandName")
      && r.value.authUrl.None? && r.value.cloudInstanceName.None?
  {
    match http(RealmUrl(domain, cfg))
    case TransportError(fault) => Err(Network(fault))
    case Response(status, body) =>
      if !IsSuccess(status) then
        Err(UnexpectedApiResponse("GetUserRealm", status, ErrorBody(body)))
      else
        match body
        case Err(fault) => Err(Network(fault))
        case Ok(text) =>
          Ok(FederationInfo(
            isFederated := true,
            nameSpaceType := Some(ExtractXmlTagValue(text, "NameSpaceType").UnwrapOr("Unknown")),
            federationBrandName := ExtractXmlTagValue(text, "FederationBrandName"),
            authUrl := None,
            cloudInstanceName := None))
  }

  /** A realm reply naming the namespace type reports it; one without the tag reports `Unknown`. */
  lemma RealmReplyNamespace(domain: string, cfg: CloudConfig, http: Http, status: StatusCode, pre: string, v: string, post: string)
    requires IsSuccess(status)
    requires http(RealmUrl(domain, cfg)) == Response(status, Ok(pre + StartTag("NameSpaceType") + v + EndTag("NameSpaceType") + post))
    requires !Contains(pre, StartTag("NameSpaceType"))
    requires !Contains(v, EndTag("NameSpaceType"))
    ensures GetFederationInfo(domain, cfg, http).Ok?
    ensures GetFederationInfo(domain, cfg, http).value.nameSpaceType == Some(v)
  {
    ExtractWrittenValue(pre, "NameSpaceType", v, post);
  }

  /** A 2xx reply without a `NameSpaceType` tag still yields a federated record of type `Unknown`. */
  lemma RealmReplyWithoutNamespace(domain: string, cfg: CloudConfig, http: Http, status: StatusCode, body: string)
    requires IsSuccess(status)
    requires http(RealmUrl(domain, cfg)) == Response(status, Ok(body))
    requires !Contains(body, StartTag("NameSpaceType"))
    ensures GetFederationInfo(domain, cfg, http).Ok?
    ensures GetFederationInfo(domain, cfg, http).value.isFederated
    ensures GetFederationInfo(domain, cfg, http).value.nameSpaceType == Some("Unknown")
  {
  }
}
