/**
 * The keys of the facts that the gateway hands to the policy (platform/graph_fallback.py, platform/gateway_service.py):
 * none of them is a violation flag or reads as the name of a secret (platform/cozo_policy.py).
 */
module GatewayKeys {
  import opened Text
  import opened PolicyCompile

  /** Whatever its value, the key does not read as a secret. */
  ghost predicate Harmless(key: string) {
    forall v :: !ExposesSecret(key, v)
  }

  /** Lower-case text without these letters. */
  predicate Lacks(s: string, a: char, b: char, c: char, d: char) {
    forall x <- s :: !('A' <= x <= 'Z') && x != a && x != b && x != c && x != d
  }

  /** The letter `d` never follows the letter `c`. */
  predicate NoPair(s: string, c: char, d: char) {
    forall i :: 0 <= i < |s| - 1 && s[i] == c ==> s[i + 1] != d
  }

  lemma NoPairNoText(s: string, m: string, k: nat)
    requires k + 1 < |m| && NoPair(s, m[k], m[k + 1])
    ensures !Contains(s, m)
  {
    forall i: nat | i <= |s| && i + |m| <= |s| ensures !OccursAt(s, m, i) {
      assert s[i..i + |m|][k] == s[i + k] && s[i..i + |m|][k + 1] == s[i + k + 1];
    }
  }

  lemma ClearOfMarkers(key: string)
    requires forall x <- key :: !('A' <= x <= 'Z')
    requires !Contains(key, "password") && !Contains(key, "secret") && !Contains(key, "token") && !Contains(key, "private_key")
    requires !Contains(key, "client_secret") && !Contains(key, "bearer")
    ensures Harmless(key)
  {
    hide Contains;
    assert forall i :: 0 <= i < |key| ==> key[i] in key;
    assert Lower(key) == key;
    forall m | m in POLICY_SECRET_MARKERS ensures !Contains(Lower(key), m) {
      assert m == "password" || m == "secret" || m == "token" || m == "private_key" || m == "client_secret" || m == "bearer";
    }
  }

  /** A letter of each marker is missing from the key of `n` letters. */
  lemma ClearByLetters(key: string, n: nat, k: char, b: char, c: char)
    requires |key| == n && Lacks(key, 'w', k, b, c)
    requires k in "token" && k in "private_key" && b in "bearer" && c in "secret"
    ensures Harmless(key)
  {
    hide Contains;
    MissingLetter(key, "password", 'w');
    MissingLetter(key, "token", k);
    MissingLetter(key, "private_key", k);
    MissingLetter(key, "bearer", b);
    MissingLetter(key, "secret", c);
    assert c in "client_secret";
    MissingLetter(key, "client_secret", c);
    ClearOfMarkers(key);
  }

  /** As before, with a pair of letters missing in place of a letter of "secret". */
  lemma ClearByPair(key: string, n: nat)
    requires |key| == n && Lacks(key, 'w', 'k', 'b', 'b') && NoPair(key, 'e', 't')
    ensures Harmless(key)
  {
    hide Contains, NoPair;
    MissingLetter(key, "password", 'w');
    MissingLetter(key, "token", 'k');
    MissingLetter(key, "private_key", 'k');
    MissingLetter(key, "bearer", 'b');
    NoPairNoText(key, "secret", 4);
    NoPairNoText(key, "client_secret", 11);
    ClearOfMarkers(key);
  }

  /** The same for a key that has all letters of "bearer". */
  lemma ClearWithBearer(key: string, n: nat)
    requires |key| == n && Lacks(key, 'w', 'k', 's', 's') && NoPair(key, 'e', 'a')
    ensures Harmless(key)
  {
    hide Contains, NoPair;
    MissingLetter(key, "password", 'w');
    MissingLetter(key, "token", 'k');
    MissingLetter(key, "private_key", 'k');
    MissingLetter(key, "secret", 's');
    MissingLetter(key, "client_secret", 's');
    NoPairNoText(key, "bearer", 1);
    ClearOfMarkers(key);
  }

  lemma ClearKeys1()
    ensures Harmless("session_id") && Harmless("tool_id") && Harmless("resource_id")
  {
    hide Harmless;
    ClearByLetters("session_id", 10, 'k', 'b', 'c');
    ClearByLetters("tool_id", 7, 'k', 'b', 's');
    ClearByLetters("resource_id", 11, 'k', 'b', 't');
  }

  lemma ClearKeys2()
    ensures Harmless("scope") && Harmless("user_id") && Harmless("agent_id")
  {
    hide Harmless;
    ClearByLetters("scope", 5, 'k', 'b', 'r');
    ClearByLetters("user_id", 7, 'k', 'b', 'c');
    ClearByLetters("agent_id", 8, 'k', 'b', 's');
  }

  lemma ClearKeys3()
    ensures Harmless("resource_team") && Harmless("goal_class")
  {
    hide Harmless;
    ClearByPair("resource_team", 13);
    ClearByLetters("goal_class", 10, 'k', 'b', 'e');
  }

  lemma ClearKeys4()
    ensures Harmless("delegation_present")
  {
    hide Harmless;
    ClearByLetters("delegation_present", 18, 'k', 'b', 'c');
  }

  lemma ClearKeys5()
    ensures Harmless("recipe_predicts_tool")
  {
    hide Harmless;
    ClearByPair("recipe_predicts_tool", 20);
  }

  lemma ClearKeys6()
    ensures Harmless("resource_external") && Harmless("resource_sensitivity")
  {
    hide Harmless;
    ClearByPair("resource_external", 17);
    ClearByPair("resource_sensitivity", 20);
  }

  lemma ClearKeys7()
    ensures Harmless("access_kind") && Harmless("scope_approval_mode")
  {
    hide Harmless;
    ClearByLetters("access_kind", 11, 't', 'b', 't');
    ClearByLetters("scope_approval_mode", 19, 'k', 'b', 't');
  }

  lemma ClearKeys8()
    ensures Harmless("agent_trust_score") && Harmless("similarity_score")
  {
    hide Harmless;
    ClearByPair("agent_trust_score", 17);
    ClearByPair("similarity_score", 16);
  }

  lemma ClearKeys9()
    ensures Harmless("similarity_reified") && Harmless("session_team")
  {
    hide Harmless;
    ClearByLetters("similarity_reified", 18, 'k', 'b', 'c');
    ClearByLetters("session_team", 12, 'k', 'b', 'c');
  }

  lemma ClearKeys10()
    ensures Harmless("same_team") && Harmless("grant_present")
  {
    hide Harmless;
    ClearByLetters("same_team", 9, 'k', 'b', 'c');
    ClearByLetters("grant_present", 13, 'k', 'b', 'c');
  }

  lemma ClearKeys11()
    ensures Harmless("credential_class")
  {
    hide Harmless;
    ClearByPair("credential_class", 16);
  }

  lemma ClearKeys12()
    ensures Harmless("credential_binding_available")
  {
    hide Harmless;
    ClearWithBearer("credential_binding_available", 28);
  }

  lemma ClearKeys13()
    ensures Harmless("credential_binding_id") && Harmless("credential_ref")
  {
    hide Harmless;
    ClearWithBearer("credential_binding_id", 21);
    ClearByLetters("credential_ref", 14, 'k', 'b', 's');
  }

  lemma ClearKeys14()
    ensures Harmless("context_snapshot_present")
  {
    hide Harmless;
    ClearByPair("context_snapshot_present", 24);
  }

  lemma ClearKeys15()
    ensures Harmless("context_snapshot_id")
  {
    hide Harmless;
    ClearByLetters("context_snapshot_id", 19, 'k', 'b', 'r');
  }

  lemma ClearKeys16()
    ensures Harmless("dolt_commit")
  {
    hide Harmless;
    ClearByLetters("dolt_commit", 11, 'k', 'b', 's');
  }

  lemma ClearKeys17()
    ensures Harmless("recipe_index_commit")
  {
    hide Harmless;
    ClearByLetters("recipe_index_commit", 19, 'k', 'b', 's');
  }

  /** The keys of the graph's facts. */
  const FACT_KEYS: set<string> := {
    "session_id", "tool_id", "resource_id", "scope", "user_id",
    "agent_id", "resource_team", "goal_class", "delegation_present", "recipe_predicts_tool",
    "resource_external", "resource_sensitivity", "access_kind", "scope_approval_mode", "agent_trust_score",
    "similarity_score", "similarity_reified", "session_team", "same_team", "grant_present"}

  /** The keys that the gateway adds. */
  const ADDED_KEYS: set<string> := {
    "credential_required", "credential_class", "credential_binding_available", "credential_binding_id", "credential_ref",
    "credential_provider", "credential_injection_mode", "credential_owner_team", "secret_exposed_to_agent",
    "context_snapshot_present", "context_snapshot_id", "dolt_commit", "recipe_index_commit"}

  lemma FactKeysAreHarmless(key: string)
    requires key in FACT_KEYS
    ensures Harmless(key)
  {
    hide Harmless;
    ClearKeys1();
    ClearKeys2();
    ClearKeys3();
    ClearKeys4();
    ClearKeys5();
    ClearKeys6();
    ClearKeys7();
    ClearKeys8();
    ClearKeys9();
    ClearKeys10();
  }

  lemma AddedKeysAreHarmless(key: string)
    requires key in ADDED_KEYS && key !in EXEMPT_KEYS
    ensures Harmless(key)
  {
    hide Harmless;
    ClearKeys11();
    ClearKeys12();
    ClearKeys13();
    ClearKeys14();
    ClearKeys15();
    ClearKeys16();
    ClearKeys17();
  }

  lemma ExemptIsHarmless(key: string)
    requires key in EXEMPT_KEYS
    ensures Harmless(key)
  {
  }

  predicate IsFlag(key: string) {
    exists f :: f in VIOLATION_FLAGS && f.0 == key
  }

  predicate Begins(key: string, c: char, d: char) {
    |key| > 1 && key[0] == c && key[1] == d
  }

  /** How the violation flags begin. */
  predicate FlagLike(key: string) {
    && |key| > 10
    && (Begins(key, 'a', 't') || Begins(key, 'd', 'i') || Begins(key, 'w', 'r') || Begins(key, 'h', 'o') || Begins(key, 'b', 'u')
        || Begins(key, 'g', 'o'))
  }

  lemma FlagsBegin()
    ensures FlagLike("attempted_direct_secret_read") && FlagLike("direct_secret_read") && FlagLike("writes_decrypted_credential")
    ensures FlagLike("hook_would_expose_secret") && FlagLike("bulk_export") && FlagLike("goal_expansion")
  {
  }

  lemma FlagsAreFlagLike(key: string)
    requires IsFlag(key)
    ensures FlagLike(key)
  {
    hide FlagLike;
    FlagsBegin();
    var f :| f in VIOLATION_FLAGS && f.0 == key;
    var i :| 0 <= i < |VIOLATION_FLAGS| && VIOLATION_FLAGS[i] == f;
    assert i == 0 || i == 1 || i == 2 || i == 3 || i == 4 || i == 5;
  }

  lemma FactKeysAreNoFlags(key: string)
    requires key in FACT_KEYS
    ensures !FlagLike(key)
  {
  }

  lemma AddedKeysAreNoFlags(key: string)
    requires key in ADDED_KEYS
    ensures !FlagLike(key)
  {
  }

  lemma KeyIsInnocent(key: string)
    requires key in FACT_KEYS || key in ADDED_KEYS
    ensures Harmless(key) && !IsFlag(key)
  {
    hide Harmless, IsFlag, FlagLike;
    if IsFlag(key) {
      FlagsAreFlagLike(key);
    }
    if key in FACT_KEYS {
      FactKeysAreHarmless(key);
      FactKeysAreNoFlags(key);
    } else {
      AddedKeysAreNoFlags(key);
      if key in EXEMPT_KEYS {
        ExemptIsHarmless(key);
      } else {
        AddedKeysAreHarmless(key);
      }
    }
  }

  lemma {:induction false} NothingFlagged(facts: Facts, flags: seq<(string, string)>)
    requires forall f :: f in flags ==> f.0 !in facts
    ensures FlaggedViolations(facts, flags) == []
  {
    if flags != [] {
      var k := |flags| - 1;
      assert flags[k] in flags;
      forall f | f in flags[..k] ensures f in flags {
      }
      NothingFlagged(facts, flags[..k]);
    }
  }
}
