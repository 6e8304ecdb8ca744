/** How the server tells its clients apart: user ids, nicknames and colours. */
module Identity {
  import opened RoRnet

  // ---------------------------------------------------------------- lists

  predicate NoDuplicates<T(==)>(s: seq<T>) {
    forall i, j :: 0 <= i < j < |s| ==> s[i] != s[j]
  }

  function RemoveAt<T>(s: seq<T>, p: nat): seq<T>
    requires p < |s|
  {
    s[..p] + s[p + 1..]
  }

  lemma RemoveAtMultiset<T>(s: seq<T>, p: nat)
    requires p < |s|
    ensures multiset(RemoveAt(s, p)) == multiset(s) - multiset{s[p]}
  {
    assert s == s[..p] + [s[p]] + s[p + 1..];
  }

  /** Pigeonhole: distinct things that all occur in a list are no more than the list is long. */
  lemma {:induction false} Pigeonhole<T>(wanted: seq<T>, have: seq<T>)
    requires NoDuplicates(wanted) && forall i :: 0 <= i < |wanted| ==> wanted[i] in have
    ensures |wanted| <= |have|
  {
    if wanted != [] {
      var n := |wanted| - 1;
      var p :| 0 <= p < |have| && have[p] == wanted[n];
      var rest := RemoveAt(have, p);
      forall i | 0 <= i < n ensures wanted[..n][i] in rest {
        var q :| 0 <= q < |have| && have[q] == wanted[i];
        assert wanted[i] != wanted[n];
        assert if q < p then rest[q] == wanted[i] else rest[q - 1] == wanted[i];
      }
      Pigeonhole(wanted[..n], rest);
    }
  }

  // ---------------------------------------------------------------- user ids

  function Uids(us: seq<UserInfo>): (r: seq<nat>)
    ensures |r| == |us|
  {
    seq(|us|, i requires 0 <= i < |us| => us[i].uid)
  }

  /** Position of the first user with this id, or -1. */
  function IndexOf(us: seq<UserInfo>, uid: nat): (i: int)
    ensures -1 <= i < |us|
    ensures i >= 0 ==> us[i].uid == uid
    ensures forall j :: 0 <= j < (if i < 0 then |us| else i) ==> us[j].uid != uid
  {
    if us == [] then -1
    else if us[0].uid == uid then 0
    else
      var i := IndexOf(us[1..], uid);
      assert forall j :: 1 <= j < |us| ==> us[j] == us[1..][j - 1];
      if i < 0 then -1 else i + 1
  }

  /** Position of the last user with this id, or 0. */
  function LastIndexOf(us: seq<UserInfo>, uid: nat): (i: nat)
    ensures us != [] ==> i < |us|
    ensures i != 0 ==> i < |us| && us[i].uid == uid
    ensures forall j :: i < j < |us| ==> us[j].uid != uid
  {
    if us == [] then 0
    else if us[|us| - 1].uid == uid then |us| - 1
    else LastIndexOf(us[..|us| - 1], uid)
  }

  predicate DistinctUids(us: seq<UserInfo>) {
    forall i, j :: 0 <= i < j < |us| ==> us[i].uid != us[j].uid
  }

  lemma IndexOfIs(us: seq<UserInfo>, i: nat)
    requires DistinctUids(us) && i < |us|
    ensures IndexOf(us, us[i].uid) == i && LastIndexOf(us, us[i].uid) == i
  {
  }

  /** The public record shown for a user id. */
  function Member(us: seq<UserInfo>, uid: nat): Option<UserInfo> {
    var i := IndexOf(us, uid);
    if i < 0 then None else Some(Public(us[i]))
  }

  // ---------------------------------------------------------------- bots

  function BotFlags(us: seq<UserInfo>): (r: seq<bool>)
    ensures |r| == |us|
  {
    seq(|us|, i requires 0 <= i < |us| => IsBot(us[i]))
  }

  function Bots(us: seq<UserInfo>): nat {
    multiset(BotFlags(us))[true]
  }

  lemma BotsAppend(us: seq<UserInfo>, u: UserInfo)
    ensures Bots(us + [u]) == Bots(us) + if IsBot(u) then 1 else 0
  {
    assert BotFlags(us + [u]) == BotFlags(us) + [IsBot(u)];
  }

  lemma BotsRemove(us: seq<UserInfo>, p: nat)
    requires p < |us|
    ensures Bots(us) == Bots(RemoveAt(us, p)) + if IsBot(us[p]) then 1 else 0
  {
    assert BotFlags(RemoveAt(us, p)) == RemoveAt(BotFlags(us), p);
    RemoveAtMultiset(BotFlags(us), p);
    assert BotFlags(us)[p] in multiset(BotFlags(us));
  }

  // ---------------------------------------------------------------- colours

  predicate ColourUsed(us: seq<UserInfo>, colour: int) {
    exists i :: 0 <= i < |us| && us[i].colour == colour
  }

  predicate DistinctColours(us: seq<UserInfo>) {
    forall i, j :: 0 <= i < j < |us| ==> us[i].colour != us[j].colour
  }

  function ColoursFrom(us: seq<UserInfo>, from: nat): set<nat> {
    set i: nat | i < |us| && us[i].colour >= from
  }

  /** GetFreePlayerColour: count up from `from` until nobody has the colour. */
  function FreeColour(us: seq<UserInfo>, from: nat): (c: nat)
    ensures from <= c && !ColourUsed(us, c)
    ensures forall k :: from <= k < c ==> ColourUsed(us, k)
    decreases ColoursFrom(us, from)
  {
    if ColourUsed(us, from) then
      ghost var i :| 0 <= i < |us| && us[i].colour == from;
      assert i in ColoursFrom(us, from) && i !in ColoursFrom(us, from + 1);
      FreeColour(us, from + 1)
    else from
  }

  /** If the first `n` colours are all in use, there are at least `n` users. */
  lemma ColoursNeedUsers(us: seq<UserInfo>, n: nat)
    requires forall k :: 0 <= k < n ==> ColourUsed(us, k)
    ensures n <= |us|
  {
    var wanted := seq(n, i => i);
    var have := seq(|us|, i requires 0 <= i < |us| => us[i].colour);
    forall i | 0 <= i < |wanted| ensures wanted[i] in have {
      assert ColourUsed(us, i);
      var p :| 0 <= p < |us| && us[p].colour == i;
      assert have[p] == wanted[i];
    }
    Pigeonhole(wanted, have);
  }

  /** The search always ends, with the least free colour, after at most one try per user plus one. */
  lemma FreeColourIsLeast(us: seq<UserInfo>)
    ensures var c := FreeColour(us, 0);
            c <= |us| && !ColourUsed(us, c) && forall k :: 0 <= k < c ==> ColourUsed(us, k)
  {
    ColoursNeedUsers(us, FreeColour(us, 0));
  }

  // ---------------------------------------------------------------- nicknames

  function Names(us: seq<UserInfo>): set<string> {
    set i | 0 <= i < |us| :: us[i].name
  }

  predicate DistinctNames(us: seq<UserInfo>) {
    forall i, j :: 0 <= i < j < |us| ==> us[i].name != us[j].name
  }

  predicate NamesFit(us: seq<UserInfo>) {
    forall i :: 0 <= i < |us| ==> |us[i].name| < MAX_USERNAME_LEN
  }

  const FIRST_SUFFIX: nat := 2
  const SUFFIX_LIMIT: nat := 99

  function Digit(d: nat): char
    requires d < 10
  {
    ['0', '1', '2', '3', '4', '5', '6', '7', '8', '9'][d]
  }

  function Decimal(n: nat): string
    requires n < 100
  {
    if n < 10 then [Digit(n)] else [Digit(n / 10), Digit(n % 10)]
  }

  /** The name shortened so that a dash and two digits still fit. */
  function NameBase(name: string): string {
    (if |name| > MAX_USERNAME_LEN - 4 then name[..MAX_USERNAME_LEN - 4] else name) + "-"
  }

  /** The substitutes tried for a taken name, in order: suffixes 2 to 98. */
  function Candidates(name: string): (cs: seq<string>)
    ensures |cs| == SUFFIX_LIMIT - FIRST_SUFFIX
    ensures forall k :: 0 <= k < |cs| ==> cs[k] == NameBase(name) + Decimal(FIRST_SUFFIX + k)
  {
    seq(SUFFIX_LIMIT - FIRST_SUFFIX,
        k requires 0 <= k < SUFFIX_LIMIT - FIRST_SUFFIX => NameBase(name) + Decimal(FIRST_SUFFIX + k))
  }

  /** The first option not taken; the fallback when all are. */
  function FirstFree(taken: set<string>, options: seq<string>, fallback: string): string {
    if options == [] then fallback
    else if options[0] !in taken then options[0]
    else FirstFree(taken, options[1..], fallback)
  }

  function NonEmpty(name: string): string {
    if name == "" then "Anonymous" else name
  }

  /** The nickname createClient gives to a user who asks for `name`. */
  function ChosenName(taken: set<string>, name: string): string {
    var nick := NonEmpty(name);
    if nick in taken then FirstFree(taken, Candidates(nick), nick) else nick
  }

  /** The substitute number `k` for a name: its first 36 characters, a dash and the number. */
  function Numbered(name: string, k: nat): string
    requires k < 100
  {
    (if |name| > 36 then name[..36] else name) + "-" + Decimal(k)
  }

  /** All substitutes before number `k` are taken. */
  predicate TakenBefore(taken: set<string>, name: string, k: nat)
    requires k <= 99
  {
    forall m :: 2 <= m < k ==> Numbered(name, m) in taken
  }

  /** The name for a user who asks for `wanted`: that one, "Anonymous" for none; if it is taken, the first substitute
      that is not, from number 2 to number 98; if there is none, the taken one. */
  ghost predicate NamedFor(taken: set<string>, wanted: string, chosen: string) {
    var name := if wanted == "" then "Anonymous" else wanted;
    if name !in taken then chosen == name
    else if TakenBefore(taken, name, 99) then chosen == name
    else exists k :: FirstSubstitute(taken, name, k, chosen)
  }

  predicate FirstSubstitute(taken: set<string>, name: string, k: nat, chosen: string) {
    2 <= k <= 98 && chosen == Numbered(name, k) && chosen !in taken && TakenBefore(taken, name, k)
  }

  lemma {:induction false} FirstFreeSpelled(taken: set<string>, name: string, k: nat)
    requires 2 <= k <= 99 && TakenBefore(taken, name, k)
    ensures var r := FirstFree(taken, Candidates(name)[k - 2..], name);
            if TakenBefore(taken, name, 99) then r == name else exists m :: FirstSubstitute(taken, name, m, r)
    decreases 99 - k
  {
    var options := Candidates(name)[k - 2..];
    if k < 99 {
      assert options[0] == Candidates(name)[k - 2] == Numbered(name, k);
      assert options[1..] == Candidates(name)[k - 1..];
      if Numbered(name, k) in taken {
        assert TakenBefore(taken, name, k + 1);
        FirstFreeSpelled(taken, name, k + 1);
        assert FirstFree(taken, options, name) == FirstFree(taken, Candidates(name)[k + 1 - 2..], name);
      } else {
        assert FirstSubstitute(taken, name, k, FirstFree(taken, options, name));
      }
    }
  }

  lemma ChosenNameSpelled(taken: set<string>, name: string)
    ensures NamedFor(taken, name, ChosenName(taken, name))
  {
    var nick := NonEmpty(name);
    FirstFreeSpelled(taken, nick, 2);
    assert Candidates(nick)[0..] == Candidates(nick);
  }

  /** The decimal form of a number: one or two digits, no zero in front. */
  lemma DecimalSpelled(n: nat)
    requires n < 100
    ensures var d := Decimal(n);
            && (forall k :: 0 <= k < |d| ==> '0' <= d[k] <= '9')
            && (|d| == 1 || (|d| == 2 && d[0] != '0'))
            && n == if |d| == 1 then d[0] as int - '0' as int
                    else 10 * (d[0] as int - '0' as int) + (d[1] as int - '0' as int)
  {
    DigitSpelled(n / 10);
    DigitSpelled(n % 10);
  }

  lemma DigitSpelled(d: nat)
    requires d < 10
    ensures Digit(d) as int - '0' as int == d
  {
  }

  lemma CandidatesDiffer(name: string)
    ensures NoDuplicates(Candidates(name))
  {
    var cs := Candidates(name);
    forall i, j | 0 <= i < j < |cs| ensures cs[i] != cs[j] {
      var base := NameBase(name);
      assert cs[i][|base|..] == Decimal(FIRST_SUFFIX + i);
      assert cs[j][|base|..] == Decimal(FIRST_SUFFIX + j);
      DecimalInjective(FIRST_SUFFIX + i, FIRST_SUFFIX + j);
    }
  }

  lemma DecimalInjective(m: nat, n: nat)
    requires m < n < 100
    ensures Decimal(m) != Decimal(n)
  {
  }

  lemma {:induction false} FirstFreeIsFree(taken: set<string>, options: seq<string>, fallback: string)
    requires fallback in taken
    ensures var r := FirstFree(taken, options, fallback);
            (r !in taken <==> exists o :: o in options && o !in taken) && (r == fallback || r in options)
  {
    if options != [] {
      FirstFreeIsFree(taken, options[1..], fallback);
      assert forall o :: o in options <==> o == options[0] || o in options[1..];
    }
  }

  /** Names that fit the field stay names that fit the field. */
  lemma ChosenNameFits(taken: set<string>, name: string)
    requires |name| < MAX_USERNAME_LEN
    ensures |ChosenName(taken, name)| < MAX_USERNAME_LEN
  {
    var nick := NonEmpty(name);
    if nick in taken {
      FirstFreeIsFree(taken, Candidates(nick), nick);
    }
  }

  /** A joining user gets an unused name exactly when the wanted one or some suffixed one is unused. */
  lemma ChosenNameIsFree(taken: set<string>, name: string)
    ensures ChosenName(taken, name) !in taken
       <==> NonEmpty(name) !in taken || exists o :: o in Candidates(NonEmpty(name)) && o !in taken
  {
    if NonEmpty(name) in taken {
      FirstFreeIsFree(taken, Candidates(NonEmpty(name)), NonEmpty(name));
    }
  }

  /** With at most 96 users present some of the 97 candidates is free, whatever the name. */
  lemma ChosenNameIsNew(us: seq<UserInfo>, name: string)
    requires |us| < SUFFIX_LIMIT - FIRST_SUFFIX
    ensures ChosenName(Names(us), name) !in Names(us)
  {
    var wanted := Candidates(NonEmpty(name));
    var have := seq(|us|, k requires 0 <= k < |us| => us[k].name);
    ChosenNameIsFree(Names(us), name);
    if forall o :: o in wanted ==> o in Names(us) {
      forall k | 0 <= k < |wanted| ensures wanted[k] in have {
        assert wanted[k] in Names(us);
        var p :| 0 <= p < |us| && us[p].name == wanted[k];
        assert have[p] == wanted[k];
      }
      CandidatesDiffer(NonEmpty(name));
      Pigeonhole(wanted, have);
    }
  }
}
