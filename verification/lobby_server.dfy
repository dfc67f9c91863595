/** The pure decisions of the lobby server: validating a lobby code typed
    by a user (`joinLobby`), the alphabet new codes are drawn from, and the
    guard that sends requests without a code back to the home page. */
module LobbyServer {
  import opened Wrappers

  /** Length of a lobby code. */
  const LobbyCodeLength := 8

  /** The alphabet generated codes are drawn from. */
  const CodeAlphabet := "0123456789ABCDEFGHIJKLMNOPQRSTUVWXYZ"

  /** The code the existence check treats as a lobby that does not exist. */
  const MissingLobbyCode := "12345678"

  /** What `joinLobby` answers: a JSON body with an error message, or a
      redirect. */
  datatype JoinResult = JsonError(error: string) | Redirect(location: string)

  /** What the code guard of `requireLobbyState` does: throw a redirect, or
      go on with the code. */
  datatype GuardResult = ThrowRedirect(location: string) | Continue(code: string)

  /** One character of the class `[0-9a-z]` under the case-insensitive
      flag: an ASCII digit or an ASCII letter of either case. */
  predicate IsCodeChar(c: char)
  {
    ('0' <= c <= '9') || ('a' <= c <= 'z') || ('A' <= c <= 'Z')
  }

  /** `LobbyCodeLength` code characters start at position `i` of `s`. */
  ghost predicate CodeRunAt(s: string, i: int)
  {
    0 <= i && i + LobbyCodeLength <= |s| && forall j :: i <= j < i + LobbyCodeLength ==> IsCodeChar(s[j])
  }

  /** `pat` occurs at position `i` of `s`. */
  ghost predicate OccursAt(s: string, pat: string, i: int)
  {
    0 <= i && i + |pat| <= |s| && s[i..i + |pat|] == pat
  }

  /** `lobbyCodeRegex.test(s)`: the pattern is not anchored, so it holds
      when a run of eight code characters appears anywhere in `s`. */
  function MatchesCodeRegex(s: string): (b: bool)
    ensures b <==> exists i :: CodeRunAt(s, i)
  {
    if |s| < LobbyCodeLength then
      assert forall i :: !CodeRunAt(s, i);
      false
    else if forall j :: 0 <= j < LobbyCodeLength ==> IsCodeChar(s[j]) then
      assert CodeRunAt(s, 0);
      true
    else
      var b := MatchesCodeRegex(s[1..]);
      assert forall i :: CodeRunAt(s[1..], i) ==> CodeRunAt(s, i + 1) by {
        forall i | CodeRunAt(s[1..], i) ensures CodeRunAt(s, i + 1) {
          assert forall j :: i + 1 <= j < i + 1 + LobbyCodeLength ==> s[j] == s[1..][j - 1];
        }
      }
      assert forall i :: CodeRunAt(s, i) ==> i > 0 && CodeRunAt(s[1..], i - 1) by {
        forall i | CodeRunAt(s, i) ensures i > 0 && CodeRunAt(s[1..], i - 1) {
          assert forall j :: i - 1 <= j < i - 1 + LobbyCodeLength ==> s[1..][j] == s[j + 1];
        }
      }
      b
  }

  /** `pattern.test(s)` for a pattern of literal characters: `pat` occurs
      somewhere in `s`. */
  function ContainsLiteral(s: string, pat: string): (b: bool)
    ensures b <==> exists i :: OccursAt(s, pat, i)
  {
    if |s| < |pat| then
      assert forall i :: !OccursAt(s, pat, i);
      false
    else if s[..|pat|] == pat then
      assert OccursAt(s, pat, 0);
      true
    else
      var b := ContainsLiteral(s[1..], pat);
      assert forall i :: OccursAt(s[1..], pat, i) ==> OccursAt(s, pat, i + 1) by {
        forall i | OccursAt(s[1..], pat, i) ensures OccursAt(s, pat, i + 1) {
          assert s[1..][i..i + |pat|] == s[i + 1..i + 1 + |pat|];
        }
      }
      assert forall i :: OccursAt(s, pat, i) ==> i > 0 && OccursAt(s[1..], pat, i - 1) by {
        forall i | OccursAt(s, pat, i) ensures i > 0 && OccursAt(s[1..], pat, i - 1) {
          assert s[1..][i - 1..i - 1 + |pat|] == s[i..i + |pat|];
        }
      }
      b
  }

  /** Upper-casing of one character (ASCII letters only). */
  function UpperChar(c: char): char
  {
    if 'a' <= c <= 'z' then (c as int - 'a' as int + 'A' as int) as char else c
  }

  /** `s.toUpperCase()` on the ASCII letters of `s`. */
  function ToUpper(s: string): (r: string)
    ensures |r| == |s|
    ensures forall i :: 0 <= i < |r| ==> !('a' <= r[i] <= 'z')
    ensures forall i :: 0 <= i < |s| ==>
              r[i] == s[i] || ('a' <= s[i] <= 'z' && r[i] as int == s[i] as int - ('a' as int - 'A' as int))
  {
    seq(|s|, i requires 0 <= i < |s| => UpperChar(s[i]))
  }

  /** `joinLobby`: the format check first, then the existence check (the
      digits of `MissingLobbyCode`, so the case-insensitive flag changes
      nothing), then a redirect to the upper-cased code. */
  function JoinLobby(code: string): (r: JoinResult)
    ensures r == JsonError("Invalid lobby code") <==> !(exists i :: CodeRunAt(code, i))
    ensures r == JsonError("Lobby does not exist")
            <==> (exists i :: CodeRunAt(code, i)) && (exists i :: OccursAt(code, MissingLobbyCode, i))
    ensures r.Redirect?
            <==> (exists i :: CodeRunAt(code, i)) && !(exists i :: OccursAt(code, MissingLobbyCode, i))
    ensures r.Redirect? ==> r.location == "/lobby/" + ToUpper(code)
  {
    if !MatchesCodeRegex(code) then JsonError("Invalid lobby code")
    else if ContainsLiteral(code, MissingLobbyCode) then JsonError("Lobby does not exist")
    else Redirect("/lobby/" + ToUpper(code))
  }

  /** The first guard of `requireLobbyState`: a missing or empty code
      (`!code`) throws a redirect to the home page before any state is
      read; any other code goes on unchanged. */
  function RequireLobbyCode(code: Option<string>): (r: GuardResult)
    ensures r == ThrowRedirect("/") <==> code.None? || code.value == ""
    ensures r.Continue? ==> code == Some(r.code) && r.code != ""
  {
    if code.None? || code.value == "" then ThrowRedirect("/") else Continue(code.value)
  }

  /** A candidate code as the generator makes it: eight characters of the
      generator's alphabet. */
  ghost predicate IsGeneratedCode(code: string)
  {
    |code| == LobbyCodeLength && forall j :: 0 <= j < |code| ==> code[j] in CodeAlphabet
  }

  /** Every character of the generator's alphabet is a digit or an upper-case
      ASCII letter. */
  lemma AlphabetChars(c: char)
    requires c in CodeAlphabet
    ensures IsCodeChar(c) && UpperChar(c) == c
  {
  }

  /** Generated codes pass the format check and are already upper case, so
      `joinLobby` redirects them to `/lobby/<code>` unchanged, except for the
      code that the existence check rejects. */
  lemma GeneratedCodeJoins(code: string)
    requires IsGeneratedCode(code)
    ensures code == MissingLobbyCode ==> JoinLobby(code) == JsonError("Lobby does not exist")
    ensures code != MissingLobbyCode ==> JoinLobby(code) == Redirect("/lobby/" + code)
  {
    forall j | 0 <= j < |code| ensures IsCodeChar(code[j]) && UpperChar(code[j]) == code[j] {
      AlphabetChars(code[j]);
    }
    assert CodeRunAt(code, 0);
    assert ToUpper(code) == code;
    assert code[0..8] == code;
    if code == MissingLobbyCode {
      assert OccursAt(code, MissingLobbyCode, 0);
    }
  }

  /** The format check is not anchored: whatever surrounds a run of eight
      code characters, of either case, the input passes it. */
  lemma UnanchoredCodeCheck(before: string, run: string, after: string)
    requires |run| == LobbyCodeLength && forall j :: 0 <= j < |run| ==> IsCodeChar(run[j])
    ensures JoinLobby(before + run + after) != JsonError("Invalid lobby code")
  {
    var s := before + run + after;
    forall j | |before| <= j < |before| + LobbyCodeLength ensures IsCodeChar(s[j]) {
      assert s[j] == run[j - |before|];
    }
    assert CodeRunAt(s, |before|);
  }

  /** A valid code typed in lower case is redirected in upper case. */
  lemma LowerCaseCodeJoins()
    ensures JoinLobby("abcd1234") == Redirect("/lobby/ABCD1234")
  {
    var code := "abcd1234";
    assert CodeRunAt(code, 0);
    assert code[0..8] == code;
    var u := ToUpper(code);
    assert u == "ABCD1234";
  }
}
