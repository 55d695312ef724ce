/**
 * The bulk-intake queue message: the payload the publisher formats, and a
 * decoder for flat JSON objects of string members, which is what the queue
 * consumer reads the payload with.
 */
module IntakeMessage {
  import opened Common
  import opened S3Path

  /**
   * `{"bucket":"<bucket>", "key":"<key>"}`, formatted with `%s` and no
   * escaping of either name.
   */
  function Payload(bucket: string, key: string): string {
    "{\"bucket\":\"" + bucket + "\", \"key\":\"" + key + "\"}"
  }

  predicate IsWs(c: char) {
    c == ' ' || c == '\t' || c == '\n' || c == '\r'
  }

  /** A character that stands for itself inside a JSON string literal. */
  predicate PlainChar(c: char) {
    c != '"' && c != '\\' && c >= ' '
  }

  /** Text that a JSON string literal holds without any escape. */
  predicate Plain(w: string) {
    forall i :: 0 <= i < |w| ==> PlainChar(w[i])
  }

  function SkipWs(s: string): (r: string)
    ensures |r| <= |s|
    ensures r == [] || !IsWs(r[0])
  {
    if |s| > 0 && IsWs(s[0]) then SkipWs(s[1..]) else s
  }

  /**
   * Length of a string literal's body, the opening quote already consumed:
   * `None` when the body holds an escape or a control character or is not
   * closed. Escapes are outside this decoder.
   */
  function BodyLength(s: string): (n: Option<nat>)
    ensures n.Some? ==> n.value < |s| && s[n.value] == '"' && Plain(s[..n.value])
  {
    if |s| == 0 || !(s[0] == '"' || PlainChar(s[0])) then None
    else if s[0] == '"' then Some(0)
    else match BodyLength(s[1..])
      case None => None
      case Some(k) =>
        assert s[..k + 1] == [s[0]] + s[1..][..k];
        Some(k + 1)
  }

  datatype Lexed = Lexed(text: string, rest: string)

  function ParseString(s: string): (r: Option<Lexed>)
    ensures r.Some? ==> |r.value.rest| < |s| && Plain(r.value.text)
  {
    if |s| == 0 || s[0] != '"' then None
    else match BodyLength(s[1..])
      case None => None
      case Some(n) => Some(Lexed(s[1..][..n], s[1..][n + 1..]))
  }

  datatype Member = Member(name: string, value: string, rest: string)

  /** `ws string ws : ws string ws`, the rest after the trailing blanks. */
  function ParseMember(s: string): (r: Option<Member>)
    ensures r.Some? ==> |r.value.rest| < |s| && Plain(r.value.value)
  {
    match ParseString(SkipWs(s))
    case None => None
    case Some(name) =>
      var afterName := SkipWs(name.rest);
      if |afterName| == 0 || afterName[0] != ':' then None
      else match ParseString(SkipWs(afterName[1..]))
        case None => None
        case Some(value) => Some(Member(name.text, value.text, SkipWs(value.rest)))
  }

  predicate PlainValues(m: map<string, string>) {
    forall k | k in m :: Plain(m[k])
  }

  /** Members up to the closing brace; a repeated name keeps its last value. */
  function ParseMembers(s: string, acc: map<string, string>): (r: Option<map<string, string>>)
    decreases |s|
  {
    match ParseMember(s)
    case None => None
    case Some(m) =>
      var acc' := acc[m.name := m.value];
      if |m.rest| > 0 && m.rest[0] == ',' then ParseMembers(m.rest[1..], acc')
      else if |m.rest| > 0 && m.rest[0] == '}' && SkipWs(m.rest[1..]) == [] then Some(acc')
      else None
  }

  /** A whole document that is one flat object of string members. */
  function DecodeObject(s: string): (r: Option<map<string, string>>)
  {
    var t := SkipWs(s);
    if |t| == 0 || t[0] != '{' then None
    else
      var u := SkipWs(t[1..]);
      if |u| > 0 && u[0] == '}' then (if SkipWs(u[1..]) == [] then Some(map[]) else None)
      else ParseMembers(u, map[])
  }

  function Get(m: map<string, string>, name: string): string {
    if name in m then m[name] else ""
  }

  /**
   * The consumer's decode into `{Bucket, Key string}`, for objects whose
   * members are all unescaped strings: a member that is absent leaves its
   * field empty, and other string members are ignored. Names match exactly,
   * and a member of any other type makes the decoder give up.
   */
  function DecodeIntake(s: string): (r: Option<Location>)
  {
    match DecodeObject(s)
    case None => None
    case Some(m) => Some(Location(Get(m, "bucket"), Get(m, "key")))
  }

  lemma {:induction false} BodyLengthOf(w: string, rest: string)
    requires Plain(w)
    ensures BodyLength(w + "\"" + rest) == Some(|w|)
  {
    if |w| > 0 {
      assert (w + "\"" + rest)[1..] == w[1..] + "\"" + rest;
      BodyLengthOf(w[1..], rest);
    }
  }

  lemma ParseStringOf(w: string, rest: string)
    requires Plain(w)
    ensures ParseString("\"" + w + "\"" + rest) == Some(Lexed(w, rest))
  {
    var s := "\"" + w + "\"" + rest;
    assert s[1..] == w + "\"" + rest;
    BodyLengthOf(w, rest);
    assert s[1..][..|w|] == w;
    assert s[1..][|w| + 1..] == rest;
  }

  /** One member as the payload spells it: `"name":"value"`. */
  function MemberText(name: string, value: string): string {
    "\"" + name + "\":\"" + value + "\""
  }

  lemma ParseMemberOf(name: string, value: string, rest: string)
    requires Plain(name) && Plain(value)
    requires rest == [] || !IsWs(rest[0])
    ensures ParseMember(MemberText(name, value) + rest) == Some(Member(name, value, rest))
  {
    var s := MemberText(name, value) + rest;
    var afterName := ":\"" + value + "\"" + rest;
    var v := "\"" + value + "\"" + rest;
    assert s == "\"" + name + "\"" + afterName;
    assert afterName == ":" + v;
    assert SkipWs(s) == s by { assert s[0] == '"'; }
    ParseStringOf(name, afterName);
    assert SkipWs(afterName) == afterName by { assert afterName[0] == ':'; }
    assert afterName[1..] == v;
    assert SkipWs(v) == v by { assert v[0] == '"'; }
    ParseStringOf(value, rest);
    assert SkipWs(rest) == rest;
  }

  /**
   * Decoding the formatted payload gives back exactly the two members, for
   * every bucket and key that need no escaping.
   */
  lemma DecodePayload(bucket: string, key: string)
    requires Plain(bucket) && Plain(key)
    ensures DecodeObject(Payload(bucket, key)) == Some(map["bucket" := bucket, "key" := key])
  {
    var first := MemberText("bucket", bucket) + ", " + (MemberText("key", key) + "}");
    PayloadSplits(bucket, key);
    DecodeObjectOf(first);
    TwoMembers(bucket, key);
  }

  lemma PayloadSplits(bucket: string, key: string)
    ensures Payload(bucket, key) ==
            "{" + (MemberText("bucket", bucket) + ", " + (MemberText("key", key) + "}"))
  {
  }

  lemma TwoMembers(bucket: string, key: string)
    requires Plain(bucket) && Plain(key)
    ensures ParseMembers(MemberText("bucket", bucket) + ", " + (MemberText("key", key) + "}"), map[]) ==
            Some(map["bucket" := bucket, "key" := key])
  {
    var m1 := map["bucket" := bucket];
    var second := MemberText("key", key) + "}";
    assert Plain("bucket") && Plain("key");
    var rest := ", " + second;
    assert MemberText("bucket", bucket) + ", " + second == MemberText("bucket", bucket) + rest;
    assert rest[1..] == " " + second;
    calc {
      ParseMembers(MemberText("bucket", bucket) + ", " + second, map[]);
    == { MembersCons("bucket", bucket, rest, map[]); }
      ParseMembers(" " + second, m1);
    == { ParseMembersSkipsBlank(second, m1); }
      ParseMembers(second, m1);
    == { MembersLast("key", key, m1); }
      Some(m1["key" := key]);
    }
  }

  lemma DecodeObjectOf(first: string)
    requires |first| > 0 && first[0] == '"'
    ensures DecodeObject("{" + first) == ParseMembers(first, map[])
  {
    var s := "{" + first;
    assert SkipWs(s) == s by { assert s[0] == '{'; }
    assert s[1..] == first;
    assert SkipWs(first) == first;
  }

  /** A member followed by a comma: the members continue after the comma. */
  lemma MembersStep(s: string, acc: map<string, string>, m: Member)
    requires ParseMember(s) == Some(m) && |m.rest| > 0 && m.rest[0] == ','
    ensures ParseMembers(s, acc) == ParseMembers(m.rest[1..], acc[m.name := m.value])
  {
  }

  lemma MembersCons(name: string, value: string, rest: string, acc: map<string, string>)
    requires Plain(name) && Plain(value) && |rest| > 0 && rest[0] == ','
    ensures ParseMembers(MemberText(name, value) + rest, acc) == ParseMembers(rest[1..], acc[name := value])
  {
    ParseMemberOf(name, value, rest);
    MembersStep(MemberText(name, value) + rest, acc, Member(name, value, rest));
  }

  lemma MembersLast(name: string, value: string, acc: map<string, string>)
    requires Plain(name) && Plain(value)
    ensures ParseMembers(MemberText(name, value) + "}", acc) == Some(acc[name := value])
  {
    ParseMemberOf(name, value, "}");
    assert "}"[1..] == [];
  }

  lemma ParseMembersSkipsBlank(s: string, acc: map<string, string>)
    ensures ParseMembers(" " + s, acc) == ParseMembers(s, acc)
  {
    assert (" " + s)[1..] == s;
    assert SkipWs(" " + s) == SkipWs(s);
    assert ParseMember(" " + s) == ParseMember(s);
  }

  /** The queue consumer reads back the bucket and key that were published. */
  lemma DecodeIntakePayload(bucket: string, key: string)
    requires Plain(bucket) && Plain(key)
    ensures DecodeIntake(Payload(bucket, key)) == Some(Location(bucket, key))
  {
    DecodePayload(bucket, key);
  }

  /**
   * Without escaping, a bucket or key holding a quote, a backslash or a
   * control character never comes back from the consumer's decode.
   */
  lemma PayloadNeedsPlainNames(bucket: string, key: string)
    requires !Plain(bucket) || !Plain(key)
    ensures DecodeIntake(Payload(bucket, key)) != Some(Location(bucket, key))
  {
    DecodedFieldsArePlain(Payload(bucket, key));
  }

  /** Whatever the decoder accepts, its members hold plain text only. */
  lemma DecodedFieldsArePlain(s: string)
    ensures DecodeIntake(s).Some? ==> Plain(DecodeIntake(s).value.bucket) && Plain(DecodeIntake(s).value.key)
  {
    DecodedObjectIsPlain(s);
    var d := DecodeObject(s);
    if d.Some? {
      GetPlain(d.value, "bucket");
      GetPlain(d.value, "key");
    }
  }

  lemma GetPlain(m: map<string, string>, name: string)
    requires PlainValues(m)
    ensures Plain(Get(m, name))
  {
  }

  lemma DecodedObjectIsPlain(s: string)
    ensures DecodeObject(s).Some? ==> PlainValues(DecodeObject(s).value)
  {
    var t := SkipWs(s);
    if |t| > 0 && t[0] == '{' {
      var u := SkipWs(t[1..]);
      if !(|u| > 0 && u[0] == '}') {
        MembersArePlain(u, map[]);
      }
    }
  }

  lemma {:induction false} MembersArePlain(s: string, acc: map<string, string>)
    requires PlainValues(acc)
    ensures ParseMembers(s, acc).Some? ==> PlainValues(ParseMembers(s, acc).value)
    decreases |s|
  {
    match ParseMember(s)
    case None =>
    case Some(m) =>
      var acc' := acc[m.name := m.value];
      if |m.rest| > 0 && m.rest[0] == ',' {
        MembersArePlain(m.rest[1..], acc');
      }
  }

  /** The test message of the repository decodes to its bucket and key. */
  lemma DecodeIntakeExample()
    ensures DecodeIntake(Payload("test-bucket", "orders/orders.csv")) ==
            Some(Location("test-bucket", "orders/orders.csv"))
  {
    DecodeIntakePayload("test-bucket", "orders/orders.csv");
  }
}
