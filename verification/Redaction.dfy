/**
 Redaction of event payloads before they are stored, published and audited.
 The regular expressions inside the string scrubber stay abstract: `scrub` is any function.
 */
module Redaction {
  import opened Common
  import opened Text

  const MAX_DEPTH := 8
  const REDACTED := String("[REDACTED]")
  const DEPTH_LIMIT := String("[REDACTED_DEPTH_LIMIT]")

  // ---- Which keys are sensitive ----

  /** The alternatives of the sensitive-key pattern, optional separators written out. */
  const SENSITIVE_WORDS: seq<string> := [
    "authorization", "cookie", "password", "secret", "token",
    "apikey", "api-key", "api_key", "rawprompt", "raw-prompt", "raw_prompt",
    "chainofthought", "chain-ofthought", "chain_ofthought",
    "chainof-thought", "chain-of-thought", "chain_of-thought",
    "chainof_thought", "chain-of_thought", "chain_of_thought", "reasoning"]

  predicate Sensitive(key: string) {
    exists w :: w in SENSITIVE_WORDS && Contains(Lower(key), w)
  }

  /** The part in front of each of these, with nothing, a hyphen or an underscore between. */
  function InFront(part: string, tails: seq<string>): seq<string> {
    if tails == [] then []
    else [part + tails[0], part + "-" + tails[0], part + "_" + tails[0]] + InFront(part, tails[1..])
  }

  /** All spellings of an alternative of the pattern, whose parts have an optional separator between them. */
  function Spellings(parts: seq<string>): seq<string> {
    if parts == [] then []
    else if |parts| == 1 then [parts[0]]
    else InFront(parts[0], Spellings(parts[1..]))
  }

  /** The pattern of the service. */
  const PATTERN: seq<seq<string>> := [
    ["authorization"], ["cookie"], ["password"], ["secret"], ["token"],
    ["api", "key"], ["raw", "prompt"], ["chain", "of", "thought"], ["reasoning"]]

  lemma {:induction false} OneInFront(part: string, tail: string, x: string, y: string, z: string)
    requires part + tail == x && part + "-" + tail == y && part + "_" + tail == z
    ensures InFront(part, [tail]) == [x, y, z]
  {
    assert InFront(part, [tail][1..]) == [];
  }

  lemma {:induction false} TwoParts(a: string, b: string, x: string, y: string, z: string)
    requires a + b == x && a + "-" + b == y && a + "_" + b == z
    ensures Spellings([a, b]) == [x, y, z]
  {
    assert [a, b][1..] == [b] && Spellings([b]) == [b];
    OneInFront(a, b, x, y, z);
  }

  lemma {:induction false} ChainOf(x: string, y: string, z: string)
    ensures InFront("chain", [x, y, z])
      == InFront("chain", [x]) + InFront("chain", [y]) + InFront("chain", [z])
  {
    assert [x, y, z][1..] == [y, z] && [y, z][1..] == [z] && [x][1..] == [] && [y][1..] == [];
  }

  lemma {:induction false} ChainWritten()
    ensures InFront("chain", ["ofthought"]) == ["chainofthought", "chain-ofthought", "chain_ofthought"]
    ensures InFront("chain", ["of-thought"]) == ["chainof-thought", "chain-of-thought", "chain_of-thought"]
    ensures InFront("chain", ["of_thought"]) == ["chainof_thought", "chain-of_thought", "chain_of_thought"]
  {
    OneInFront("chain", "ofthought", "chainofthought", "chain-ofthought", "chain_ofthought");
    OneInFront("chain", "of-thought", "chainof-thought", "chain-of-thought", "chain_of-thought");
    OneInFront("chain", "of_thought", "chainof_thought", "chain-of_thought", "chain_of_thought");
  }

  lemma {:induction false} Thoughts()
    ensures Spellings(["chain", "of", "thought"]) == [
      "chainofthought", "chain-ofthought", "chain_ofthought",
      "chainof-thought", "chain-of-thought", "chain_of-thought",
      "chainof_thought", "chain-of_thought", "chain_of_thought"]
  {
    assert ["chain", "of", "thought"][1..] == ["of", "thought"];
    TwoParts("of", "thought", "ofthought", "of-thought", "of_thought");
    ChainOf("ofthought", "of-thought", "of_thought");
    ChainWritten();
  }

  predicate Spelled(w: string) {
    exists k :: 0 <= k < |PATTERN| && w in Spellings(PATTERN[k])
  }

  /** What the alternatives stand for, one after the other. */
  lemma {:induction false} SpelledOut()
    ensures Spellings(PATTERN[0]) == ["authorization"] && Spellings(PATTERN[1]) == ["cookie"]
    ensures Spellings(PATTERN[2]) == ["password"] && Spellings(PATTERN[3]) == ["secret"]
    ensures Spellings(PATTERN[4]) == ["token"] && Spellings(PATTERN[8]) == ["reasoning"]
    ensures Spellings(PATTERN[5]) == ["apikey", "api-key", "api_key"]
    ensures Spellings(PATTERN[6]) == ["rawprompt", "raw-prompt", "raw_prompt"]
  {
    TwoParts("api", "key", "apikey", "api-key", "api_key");
    TwoParts("raw", "prompt", "rawprompt", "raw-prompt", "raw_prompt");
  }

  lemma {:induction false} ListedIsSpelled(w: string)
    requires w in SENSITIVE_WORDS
    ensures Spelled(w)
  {
    SpelledOut();
    Thoughts();
    if w in Spellings(PATTERN[5]) || w in Spellings(PATTERN[6]) || w in Spellings(PATTERN[8]) {
    } else if w in Spellings(["chain", "of", "thought"]) {
      assert w in Spellings(PATTERN[7]);
    } else {
      assert exists k :: 0 <= k < 5 && w in Spellings(PATTERN[k]);
    }
  }

  lemma {:induction false} SpelledIsListed(w: string)
    requires Spelled(w)
    ensures w in SENSITIVE_WORDS
  {
    SpelledOut();
    Thoughts();
    var k :| 0 <= k < |PATTERN| && w in Spellings(PATTERN[k]);
    assert k == 7 ==> w in Spellings(["chain", "of", "thought"]);
  }

  /** The listed words are exactly the spellings of the pattern's alternatives. */
  lemma {:induction false} WordsAreThePattern(w: string)
    ensures w in SENSITIVE_WORDS <==> Spelled(w)
  {
    if w in SENSITIVE_WORDS { ListedIsSpelled(w); }
    if Spelled(w) { SpelledIsListed(w); }
  }

  // ---- The redactor ----

  function Redact(scrub: string -> string, v: Json, depth: nat): Json
    decreases v
  {
    if depth > MAX_DEPTH then DEPTH_LIMIT
    else match v
      case Array(items) =>
        Array(seq(|items|, i requires 0 <= i < |items| => Redact(scrub, items[i], depth + 1)))
      case String(s) => String(scrub(s))
      case Object(fields) =>
        Object(map k | k in fields ::
          if Sensitive(k) then REDACTED else Redact(scrub, fields[k], depth + 1))
      case _ => v
  }

  function RedactPayload(scrub: string -> string, payload: Payload): Payload {
    Redact(scrub, Object(payload), 0).fields
  }

  // ---- What a public value is, independently of the redactor ----

  /** No value other than the marker under a sensitive key, at any depth. */
  predicate Clean(v: Json) {
    match v
    case Array(items) => forall i :: 0 <= i < |items| ==> Clean(items[i])
    case Object(fields) =>
      forall k :: k in fields ==> if Sensitive(k) then fields[k] == REDACTED else Clean(fields[k])
    case _ => true
  }

  /** At most `levels` nested containers. */
  predicate Shallow(v: Json, levels: nat) {
    match v
    case Array(items) => levels > 0 && forall i :: 0 <= i < |items| ==> Shallow(items[i], levels - 1)
    case Object(fields) => levels > 0 && forall k :: k in fields ==> Shallow(fields[k], levels - 1)
    case _ => true
  }

  /** Every string outside the marked places is already scrubbed; past the limit only the marker stands. */
  predicate Scrubbed(scrub: string -> string, v: Json, depth: nat)
    decreases v
  {
    if depth > 8 then v == DEPTH_LIMIT
    else match v
      case Array(items) => forall i :: 0 <= i < |items| ==> Scrubbed(scrub, items[i], depth + 1)
      case String(s) => scrub(s) == s
      case Object(fields) =>
        forall k :: k in fields && !Sensitive(k) ==> Scrubbed(scrub, fields[k], depth + 1)
      case _ => true
  }

  /** Whatever the scrubber does, the output hides every sensitive key and nests at most nine deep. */
  lemma {:induction false} RedactIsSafe(scrub: string -> string, v: Json, depth: nat)
    requires depth <= 9
    ensures Clean(Redact(scrub, v, depth))
    ensures Shallow(Redact(scrub, v, depth), 9 - depth)
    decreases v
  {
    if depth <= MAX_DEPTH {
      match v
      case Array(items) =>
        forall i | 0 <= i < |items| { RedactIsSafe(scrub, items[i], depth + 1); }
      case Object(fields) =>
        forall k | k in fields { RedactIsSafe(scrub, fields[k], depth + 1); }
      case _ =>
    }
  }

  /** With an idempotent scrubber the output is fully scrubbed. */
  lemma {:induction false} RedactScrubs(scrub: string -> string, v: Json, depth: nat)
    requires forall s :: scrub(scrub(s)) == scrub(s)
    ensures Scrubbed(scrub, Redact(scrub, v, depth), depth)
    decreases v
  {
    if depth <= MAX_DEPTH {
      match v
      case Array(items) =>
        forall i | 0 <= i < |items| { RedactScrubs(scrub, items[i], depth + 1); }
      case Object(fields) =>
        forall k | k in fields { RedactScrubs(scrub, fields[k], depth + 1); }
      case _ =>
    }
  }

  /** The values that redaction leaves alone are exactly the clean and scrubbed ones. */
  lemma {:induction false} RedactFixpoints(scrub: string -> string, v: Json, depth: nat)
    ensures Redact(scrub, v, depth) == v <==> Clean(v) && Scrubbed(scrub, v, depth)
    decreases v
  {
    if depth <= MAX_DEPTH {
      match v
      case Array(items) =>
        forall i | 0 <= i < |items| { RedactFixpoints(scrub, items[i], depth + 1); }
        var out := Redact(scrub, v, depth).items;
        assert out == items <==> forall i :: 0 <= i < |items| ==> out[i] == items[i];
      case Object(fields) =>
        forall k | k in fields { RedactFixpoints(scrub, fields[k], depth + 1); }
        var out := Redact(scrub, v, depth).fields;
        assert out.Keys == fields.Keys;
        assert out == fields <==> forall k :: k in fields ==> out[k] == fields[k];
      case _ =>
    }
  }

  /** Redaction is a projection. */
  lemma {:induction false} RedactIdempotent(scrub: string -> string, v: Json, depth: nat)
    requires forall s :: scrub(scrub(s)) == scrub(s)
    ensures Redact(scrub, Redact(scrub, v, depth), depth) == Redact(scrub, v, depth)
  {
    var out := Redact(scrub, v, depth);
    RedactScrubs(scrub, v, depth);
    if depth <= MAX_DEPTH + 1 { RedactIsSafe(scrub, v, depth); }
    RedactFixpoints(scrub, out, depth);
  }

  /** A field under an open key is redacted in place. */
  lemma {:induction false} RedactField(scrub: string -> string, fields: map<string, Json>, key: string, depth: nat)
    requires depth <= MAX_DEPTH && key in fields && !Sensitive(key)
    ensures var out := Redact(scrub, Object(fields), depth);
      out.Object? && key in out.fields && out.fields[key] == Redact(scrub, fields[key], depth + 1)
  {
  }

  // ---- The audit entry of a recorded event ----

  lemma {:induction false} AuditKeysAreOpen()
    ensures !Sensitive("agent") && !Sensitive("eventId") && !Sensitive("sequence")
  {
    KeyIsOpen("agent", "agent");
    KeyIsOpen("eventId", "eventid");
    KeyIsOpen("sequence", "sequence");
  }

  /** The keys on the path from a stored payload to its proposed action are not sensitive. */
  lemma {:induction false} ProposalKeysAreOpen()
    ensures !Sensitive("decision") && !Sensitive("proposedAction")
    ensures !Sensitive("type") && !Sensitive("title") && !Sensitive("description")
  {
    DecisionKeysAreOpen();
    ActionKeysAreOpen();
  }

  lemma {:induction false} DecisionKeysAreOpen()
    ensures !Sensitive("decision") && !Sensitive("proposedAction")
  {
    KeyIsOpen("decision", "decision");
    KeyIsOpen("proposedAction", "proposedaction");
  }

  lemma {:induction false} ActionKeysAreOpen()
    ensures !Sensitive("type") && !Sensitive("title") && !Sensitive("description")
  {
    KeyIsOpen("type", "type");
    KeyIsOpen("title", "title");
    KeyIsOpen("description", "description");
  }

  /** The first three letters of every sensitive word. */
  predicate Head(a: char, b: char, c: char) {
    || (a == 'a' && b == 'u' && c == 't')
    || (a == 'c' && b == 'o' && c == 'o')
    || (a == 'p' && b == 'a' && c == 's')
    || (a == 's' && b == 'e' && c == 'c')
    || (a == 't' && b == 'o' && c == 'k')
    || (a == 'a' && b == 'p' && c == 'i')
    || (a == 'r' && b == 'a' && c == 'w')
    || (a == 'c' && b == 'h' && c == 'a')
    || (a == 'r' && b == 'e' && c == 'a')
  }

  lemma {:induction false} WordsHaveHeads(w: string)
    requires w in SENSITIVE_WORDS
    ensures |w| > 2 && Head(w[0], w[1], w[2])
    ensures w[0] == 'r' && w[1] == 'e' ==> |w| == 9
  {
  }

  /** A key is open when no sensitive word can start at any of its positions. */
  lemma {:induction false} KeyIsOpen(key: string, lower: string)
    requires Lower(key) == lower
    requires forall i :: 0 <= i < |lower| - 2 ==> !Head(lower[i], lower[i + 1], lower[i + 2])
    ensures !Sensitive(key)
  {
    forall w, i: nat | w in SENSITIVE_WORDS ensures !StartsAt(lower, i, w) {
      WordsHaveHeads(w);
      StartsWithHead(lower, i, w);
    }
  }

  /** The word that begins like this key is longer. */
  lemma {:induction false} ReasonIsOpen()
    ensures !Sensitive("reason")
  {
    assert Lower("reason") == "reason";
    forall w, i: nat | w in SENSITIVE_WORDS ensures !StartsAt("reason", i, w) {
      WordsHaveHeads(w);
      StartsWithHead("reason", i, w);
    }
  }

  lemma {:induction false} StartsWithHead(s: string, i: nat, w: string)
    requires |w| > 2
    ensures StartsAt(s, i, w) ==> s[i] == w[0] && s[i + 1] == w[1] && s[i + 2] == w[2]
  {
    if StartsAt(s, i, w) {
      var t := s[i..i + |w|];
      assert t[0] == s[i] && t[1] == s[i + 1] && t[2] == s[i + 2];
    }
  }

  /** The payload the audit log receives: the stored payload plus three keys, redacted once more. */
  function AuditPayload(scrub: string -> string, stored: Payload, agent: Json, id: string, sequence: nat): Payload {
    RedactPayload(scrub,
      stored["agent" := agent]["eventId" := String(id)]["sequence" := Number(sequence as real)])
  }

  /**
   The second redaction changes nothing: an audit entry is the stored payload with the three
   keys overridden, provided the scrubber leaves the agent name and the event id alone.
   */
  lemma {:induction false} AuditEqualsStoredPayload(
      scrub: string -> string, payload: Payload, agent: Json, id: string, sequence: nat)
    requires forall s :: scrub(scrub(s)) == scrub(s)
    requires scrub(id) == id
    requires agent.Null? || (agent.String? && scrub(agent.s) == agent.s)
    ensures var stored := RedactPayload(scrub, payload);
      AuditPayload(scrub, stored, agent, id, sequence)
        == stored["agent" := agent]["eventId" := String(id)]["sequence" := Number(sequence as real)]
  {
    var stored := RedactPayload(scrub, payload);
    var entry := stored["agent" := agent]["eventId" := String(id)]["sequence" := Number(sequence as real)];
    AuditKeysAreOpen();
    RedactScrubs(scrub, Object(payload), 0);
    RedactIsSafe(scrub, Object(payload), 0);
    assert Redact(scrub, Object(payload), 0) == Object(stored);
    assert Clean(Object(entry));
    assert Scrubbed(scrub, Object(entry), 0);
    RedactFixpoints(scrub, Object(entry), 0);
  }
}
