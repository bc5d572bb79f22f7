/**
 * Envelope resolution of the base mailable: address normalisation, the
 * debug redirect of recipients, the debug subject prefix, sender and
 * template defaults, and the "one option or all of them" lookup. The
 * `config()` values are passed in as a `MailConfig`; Laravel's `Address`
 * becomes a plain record.
 */
module BaseMailable {

  import opened Wrappers
  import opened PhpValues

  /** A `string|array` address argument, or null / an absent config key. */
  datatype AddressInput = NoAddresses | AddressString(s: string) | AddressArray(items: seq<string>)

  /** The `mail.*` configuration values the mailable reads. */
  datatype MailConfig = MailConfig(
    fromAddress: string,            // mail.from.address
    fromName: string,               // mail.from.name
    debugEnabled: bool,             // mail.debug.enabled (default false)
    subjectPrefix: Option<string>,  // mail.debug.subject_prefix (None: key absent)
    debugRecipients: AddressInput   // mail.debug.recipients (default [])
  )

  datatype Address = Address(email: string, name: Option<string>)

  /** The constructor arguments of a mailable. */
  datatype Mailable = Mailable(
    to: AddressInput,
    subject: string,
    blocks: seq<string>,
    content: Option<string>,
    cc: AddressInput,
    bcc: AddressInput,
    replyTo: Option<string>,
    from: Option<string>,
    fromName: Option<string>,
    templateName: Option<string>,
    metadata: map<string, string>
  )

  /** PHP's `empty()` on an address argument. */
  predicate IsEmpty(e: AddressInput)
  {
    match e
    case NoAddresses => true
    case AddressString(s) => !Truthy(s)
    case AddressArray(items) => items == []
  }

  /** `array_filter` without a callback: the truthy elements, in order. */
  function Filter(xs: seq<string>): (r: seq<string>)
    ensures |r| <= |xs|
    ensures forall x :: x in r <==> x in xs && Truthy(x)
  {
    if xs == [] then []
    else if Truthy(xs[0]) then [xs[0]] + Filter(xs[1..])
    else Filter(xs[1..])
  }

  /** A single element survives exactly when it is truthy. */
  lemma FilterSingleton(x: string)
    ensures Filter([x]) == if Truthy(x) then [x] else []
  {
    assert [x][1..] == [];
  }

  /**
   * Filtering distributes over concatenation, so together with
   * `FilterSingleton` the result is the truthy elements in their order, each
   * as often as it occurs.
   */
  lemma {:induction false} FilterConcat(a: seq<string>, b: seq<string>)
    ensures Filter(a + b) == Filter(a) + Filter(b)
    decreases |a|
  {
    if a != [] {
      assert (a + b)[0] == a[0];
      assert (a + b)[1..] == a[1..] + b;
      FilterConcat(a[1..], b);
    } else {
      assert a + b == b;
    }
  }

  lemma {:induction false} FilterIdempotent(xs: seq<string>)
    ensures Filter(Filter(xs)) == Filter(xs)
  {
    if xs != [] {
      FilterIdempotent(xs[1..]);
      if Truthy(xs[0]) {
        assert ([xs[0]] + Filter(xs[1..]))[1..] == Filter(xs[1..]);
      }
    }
  }

  lemma {:induction false} FilterKeepsTruthy(xs: seq<string>)
    requires forall x :: x in xs ==> Truthy(x)
    ensures Filter(xs) == xs
  {
    if xs != [] {
      FilterKeepsTruthy(xs[1..]);
    }
  }

  /** `array_map('trim', $pieces)`. */
  function TrimAll(pieces: seq<string>): (r: seq<string>)
    ensures |r| == |pieces|
    ensures forall i :: 0 <= i < |r| ==> r[i] == Trim(pieces[i])
  {
    seq(|pieces|, i requires 0 <= i < |pieces| => Trim(pieces[i]))
  }

  /** A character of a trimmed string is a character of the original. */
  lemma TrimKeepsAbsence(c: char, s: string)
    requires c !in s
    ensures c !in Trim(s)
  {
    var r, k := Trim(s), LeadingTrim(s);
    assert forall j :: 0 <= j < |r| ==> r[j] == s[k + j];
  }

  /**
   * `normalizeEmails`: an empty argument gives no addresses; a string is split
   * on commas, each piece trimmed, and empty pieces dropped; an array keeps its
   * truthy elements in order.
   */
  function NormalizeEmails(e: AddressInput): (r: seq<string>)
    ensures IsEmpty(e) ==> r == []
    ensures forall x :: x in r ==> Truthy(x)
    ensures e.AddressString? ==> forall x :: x in r ==> x != "" && ',' !in x && Trim(x) == x
    ensures e.AddressString? && !IsEmpty(e) ==> r == Filter(TrimAll(Explode(',', e.s)))
    ensures e.AddressArray? ==> r == Filter(e.items)
  {
    if IsEmpty(e) then []
    else match e
      case AddressString(s) =>
        var pieces := Explode(',', s);
        var trimmed := TrimAll(pieces);
        assert forall x :: x in trimmed ==> ',' !in x && Trim(x) == x by {
          forall i | 0 <= i < |trimmed|
            ensures ',' !in trimmed[i] && Trim(trimmed[i]) == trimmed[i]
          {
            assert pieces[i] in pieces;
            TrimKeepsAbsence(',', pieces[i]);
            TrimIdempotent(pieces[i]);
          }
        }
        Filter(trimmed)
      case AddressArray(items) => Filter(items)
  }

  /** Normalising an already normalised list changes nothing. */
  lemma NormalizeIdempotent(e: AddressInput)
    ensures NormalizeEmails(AddressArray(NormalizeEmails(e))) == NormalizeEmails(e)
  {
    var r := NormalizeEmails(e);
    FilterKeepsTruthy(r);
  }

  /** Imploding truthy pieces gives a truthy string. */
  lemma {:induction false} ImplodeTruthy(xs: seq<string>)
    requires xs != [] && forall x :: x in xs ==> Truthy(x)
    ensures Truthy(Implode(",", xs))
  {
    if |xs| > 1 {
      var s := Implode(",", xs);
      assert s == xs[0] + "," + Implode(",", xs[1..]);
      assert s[|xs[0]|] == ',';
    }
  }

  /** Addresses that are non-empty, trimmed and comma-free survive a comma-joined round trip. */
  lemma CommaJoinedRoundTrip(xs: seq<string>)
    requires forall x :: x in xs ==> Truthy(x) && ',' !in x && Trim(x) == x
    ensures NormalizeEmails(AddressString(Implode(",", xs))) == xs
  {
    if xs != [] {
      var s := Implode(",", xs);
      ImplodeTruthy(xs);
      ExplodeImplode(',', xs);
      var trimmed := TrimAll(Explode(',', s));
      assert trimmed == xs;
      FilterKeepsTruthy(xs);
      assert NormalizeEmails(AddressString(s)) == Filter(trimmed);
    }
  }

  /** `getAddresses`: one address record per normalised email, without a name. */
  function GetAddresses(e: AddressInput): (r: seq<Address>)
    ensures |r| == |NormalizeEmails(e)|
    ensures forall i :: 0 <= i < |r| ==> r[i] == Address(NormalizeEmails(e)[i], None)
  {
    var emails := NormalizeEmails(e);
    seq(|emails|, i requires 0 <= i < |emails| => Address(emails[i], None))
  }

  /** `getFrom`: each part falls back to the configured default only when null. */
  function GetFrom(m: Mailable, cfg: MailConfig): (a: Address)
    ensures m.from.Some? ==> a.email == m.from.value
    ensures m.from.None? ==> a.email == cfg.fromAddress
    ensures m.fromName.Some? ==> a.name == m.fromName
    ensures m.fromName.None? ==> a.name == Some(cfg.fromName)
  {
    Address(
      match m.from case Some(f) => f case None => cfg.fromAddress,
      Some(match m.fromName case Some(n) => n case None => cfg.fromName))
  }

  /**
   * `getDebugRecipients`: the configured debug list, whatever the original
   * recipients were (they are only logged, which is not modelled).
   */
  function GetDebugRecipients(original: seq<string>, cfg: MailConfig): (r: seq<Address>)
    ensures r == GetAddresses(cfg.debugRecipients)
  {
    GetAddresses(cfg.debugRecipients)
  }

  /**
   * `getRecipients`: with debug off, the normalised `to` addresses; with debug
   * on, exactly the configured debug list.
   */
  function GetRecipients(m: Mailable, cfg: MailConfig): (r: seq<Address>)
    ensures !cfg.debugEnabled ==> r == GetAddresses(m.to)
    ensures cfg.debugEnabled ==> r == GetAddresses(cfg.debugRecipients)
  {
    var recipients := NormalizeEmails(m.to);
    if cfg.debugEnabled then
      GetDebugRecipients(recipients, cfg)
    else
      NormalizeIdempotent(m.to);
      GetAddresses(AddressArray(recipients))
  }

  /** In debug mode the recipients do not depend on `to` at all. */
  lemma DebugRecipientsIgnoreTo(m1: Mailable, m2: Mailable, cfg: MailConfig)
    requires cfg.debugEnabled
    ensures GetRecipients(m1, cfg) == GetRecipients(m2, cfg)
  {
  }

  function DebugPrefix(cfg: MailConfig): string
  {
    match cfg.subjectPrefix
    case Some(p) => p
    case None => "[DEBUG]"
  }

  /**
   * `getSubject`: unchanged with debug off; with debug on, the prefix (by
   * default "[DEBUG]"), a space, then the subject.
   */
  function GetSubject(m: Mailable, cfg: MailConfig): (r: string)
    ensures !cfg.debugEnabled ==> r == m.subject
    ensures cfg.debugEnabled ==>
      (&& |r| == |DebugPrefix(cfg)| + 1 + |m.subject|
       && r[..|DebugPrefix(cfg)|] == DebugPrefix(cfg)
       && r[|DebugPrefix(cfg)|] == ' '
       && r[|DebugPrefix(cfg)| + 1..] == m.subject)
    ensures cfg.debugEnabled && cfg.subjectPrefix.None? ==> r == "[DEBUG] " + m.subject
  {
    if !cfg.debugEnabled then m.subject
    else DebugPrefix(cfg) + " " + m.subject
  }

  /** `getTemplateName`: "default" when no template name was given. */
  function GetTemplateName(m: Mailable): (r: string)
    ensures m.templateName.None? ==> r == "default"
    ensures m.templateName.Some? ==> r == m.templateName.value
  {
    match m.templateName
    case Some(t) => t
    case None => "default"
  }

  datatype TemplateData = TemplateData(
    subject: string, blocks: seq<string>, content: Option<string>, metadata: map<string, string>)

  /** `getTemplateData`: the resolved subject plus the blocks, content and metadata as given. */
  function GetTemplateData(m: Mailable, cfg: MailConfig): (d: TemplateData)
    ensures d.subject == GetSubject(m, cfg)
    ensures d.blocks == m.blocks && d.content == m.content && d.metadata == m.metadata
  {
    TemplateData(GetSubject(m, cfg), m.blocks, m.content, m.metadata)
  }

  /** The reply-to list: empty when the address is null or falsy, otherwise that one address. */
  function ReplyTo(m: Mailable): (r: seq<Address>)
    ensures m.replyTo.None? || !Truthy(m.replyTo.value) ==> r == []
    ensures m.replyTo.Some? && Truthy(m.replyTo.value) ==> r == [Address(m.replyTo.value, None)]
  {
    match m.replyTo
    case Some(a) => if Truthy(a) then [Address(a, None)] else []
    case None => []
  }

  /** A value of the envelope options array. */
  datatype EnvelopeValue =
    | SenderValue(sender: Address)
    | AddressesValue(addresses: seq<Address>)
    | StringValue(text: string)
    | MetadataValue(metadata: map<string, string>)
    | TemplateDataValue(data: TemplateData)
    | BoolValue(flag: bool)

  /** PHP truthiness of an envelope value (an object or a four-key array is always truthy). */
  predicate IsTruthyValue(v: EnvelopeValue)
  {
    match v
    case SenderValue(_) => true
    case AddressesValue(a) => a != []
    case StringValue(t) => Truthy(t)
    case MetadataValue(md) => |md| > 0
    case TemplateDataValue(_) => true
    case BoolValue(b) => b
  }

  /** The options array built by `getEnvelopeOptions`, one field per key. */
  datatype EnvelopeOptions = EnvelopeOptions(
    from: Address, replyTo: seq<Address>, to: seq<Address>, cc: seq<Address>, bcc: seq<Address>,
    subject: string, metadata: map<string, string>, templateName: string,
    templateData: TemplateData, isDebug: bool)

  const EnvelopeKeys: set<string> :=
    {"from", "replyTo", "to", "cc", "bcc", "subject", "metadata", "template_name", "template_data", "is_debug"}

  /** `Arr::get($options, $key)`: the value under a key of the options array, if present. */
  function Get(opts: EnvelopeOptions, key: string): (r: Option<EnvelopeValue>)
    ensures r.Some? <==> key in EnvelopeKeys
  {
    if key == "from" then Some(SenderValue(opts.from))
    else if key == "replyTo" then Some(AddressesValue(opts.replyTo))
    else if key == "to" then Some(AddressesValue(opts.to))
    else if key == "cc" then Some(AddressesValue(opts.cc))
    else if key == "bcc" then Some(AddressesValue(opts.bcc))
    else if key == "subject" then Some(StringValue(opts.subject))
    else if key == "metadata" then Some(MetadataValue(opts.metadata))
    else if key == "template_name" then Some(StringValue(opts.templateName))
    else if key == "template_data" then Some(TemplateDataValue(opts.templateData))
    else if key == "is_debug" then Some(BoolValue(opts.isDebug))
    else None
  }

  /** The options array of a mailable under a configuration. */
  function Options(m: Mailable, cfg: MailConfig): (opts: EnvelopeOptions)
    ensures opts.to == GetRecipients(m, cfg) && opts.subject == GetSubject(m, cfg)
    ensures opts.cc == GetAddresses(m.cc) && opts.bcc == GetAddresses(m.bcc)
    ensures opts.from == GetFrom(m, cfg) && opts.replyTo == ReplyTo(m)
    ensures opts.templateName == GetTemplateName(m) && opts.isDebug == cfg.debugEnabled
    ensures opts.metadata == m.metadata && opts.templateData == GetTemplateData(m, cfg)
  {
    EnvelopeOptions(
      GetFrom(m, cfg), ReplyTo(m), GetRecipients(m, cfg), GetAddresses(m.cc), GetAddresses(m.bcc),
      GetSubject(m, cfg), m.metadata, GetTemplateName(m), GetTemplateData(m, cfg), cfg.debugEnabled)
  }

  /** What `getEnvelopeOptions` returns: one option's value, or the whole array. */
  datatype EnvelopeLookup = Single(value: EnvelopeValue) | Whole(options: EnvelopeOptions)

  /**
   * `getEnvelopeOptions($option)`: the value under `option` when both the key
   * and that value are truthy; otherwise, including for an unknown key, the
   * whole options array.
   */
  function GetEnvelopeOptions(m: Mailable, cfg: MailConfig, option: Option<string>): (r: EnvelopeLookup)
    ensures r.Single? <==>
      (&& option.Some? && Truthy(option.value) && option.value in EnvelopeKeys
       && IsTruthyValue(Get(Options(m, cfg), option.value).value))
    ensures r.Single? ==> Get(Options(m, cfg), option.value) == Some(r.value)
    ensures r.Whole? ==> r.options == Options(m, cfg)
  {
    var opts := Options(m, cfg);
    match option
    case Some(k) =>
      if Truthy(k) && Get(opts, k).Some? && IsTruthyValue(Get(opts, k).value) then Single(Get(opts, k).value)
      else Whole(opts)
    case None => Whole(opts)
  }

  /** The envelope handed to the mailer, read out of the options array. */
  datatype Envelope = Envelope(
    from: Address, replyTo: seq<Address>, to: seq<Address>, cc: seq<Address>,
    bcc: seq<Address>, subject: string, metadata: map<string, string>)

  /** `envelope()`: in debug mode the envelope goes to the debug list under a prefixed subject. */
  function BuildEnvelope(m: Mailable, cfg: MailConfig): (env: Envelope)
    ensures cfg.debugEnabled ==> env.to == GetAddresses(cfg.debugRecipients)
    ensures !cfg.debugEnabled ==> env.to == GetAddresses(m.to) && env.subject == m.subject
    ensures env.cc == GetAddresses(m.cc) && env.bcc == GetAddresses(m.bcc)
    ensures env.subject == GetSubject(m, cfg) && env.from == GetFrom(m, cfg)
    ensures env.replyTo == ReplyTo(m) && env.metadata == m.metadata
  {
    var opts := GetEnvelopeOptions(m, cfg, None).options;
    Envelope(opts.from, opts.replyTo, opts.to, opts.cc, opts.bcc, opts.subject, opts.metadata)
  }
}
