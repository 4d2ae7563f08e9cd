/** The web client's anonymous user id (web/src/lib/supabase.ts): an id kept in the browser's
    localStorage under "USER_ID", replaced by a fresh UUID version 4 (section 4.4 of RFC 4122)
    whenever the stored value is missing or does not have that shape. `crypto.randomUUID` and
    `Math.random` are parameters. */
module AnonId {
  import opened Wrappers
  import opened Strings

  const UserIdKey := "USER_ID"

  /** The fallback template "xxxxxxxx-xxxx-4xxx-yxxx-xxxxxxxxxxxx", written by its groups:
      every 'x' becomes a random hex digit, the 'y' a digit in 8..b. */
  const Template := Xs(8) + "-" + Xs(4) + "-4" + Xs(3) + "-y" + Xs(3) + "-" + Xs(12)

  predicate IsHex(c: char) { '0' <= c <= '9' || 'a' <= c <= 'f' || 'A' <= c <= 'F' }

  /** One position of `/^[0-9a-f]{8}-[0-9a-f]{4}-4[0-9a-f]{3}-[89ab][0-9a-f]{3}-[0-9a-f]{12}$/i`. */
  predicate UuidCharAt(j: nat, c: char)
  {
    if j == 8 || j == 13 || j == 18 || j == 23 then c == '-'
    else if j == 14 then c == '4'
    else if j == 19 then c in "89abAB"
    else IsHex(c)
  }

  /** The UUID version 4 pattern the client accepts, case-insensitively. */
  predicate IsUuidV4(s: string)
  {
    |s| == 36 && forall j :: 0 <= j < |s| ==> UuidCharAt(j, s[j])
  }

  /** The pattern ignores case: an id matches exactly when its lower-cased form does. */
  lemma UuidCaseInsensitive(s: string)
    ensures IsUuidV4(s) <==> IsUuidV4(Lower(s))
  {
    var l := Lower(s);
    forall j | 0 <= j < |s| ensures UuidCharAt(j, s[j]) <==> UuidCharAt(j, l[j]) {
      assert l[j] == ToLower(s[j]);
    }
  }

  predicate IsSlot(c: char) { c == 'x' || c == 'y' }

  /** How many random draws filling `t` takes. */
  function SlotCount(t: string): (n: nat)
    ensures n <= |t|
  {
    if t == [] then 0 else (if IsSlot(t[0]) then 1 else 0) + SlotCount(t[1..])
  }

  /** The replacement for one matched character: `r` for 'x', `(r & 0x3) | 0x8` for 'y'
      (for `r < 16` that is `r % 4 + 8`, bit 3 being clear in `r & 0x3`). */
  function Nibble(c: char, r: nat): (d: nat)
    requires r < 16
    ensures d < 16
    ensures c == 'y' ==> 8 <= d <= 11
  {
    if c == 'x' then r else r % 4 + 8
  }

  /** `t.replace(/[xy]/g, ...)` with the callback's draws taken from `draws` in order. */
  function Fill(t: string, draws: seq<nat>): (id: string)
    requires |draws| == SlotCount(t)
    requires forall k :: 0 <= k < |draws| ==> draws[k] < 16
  {
    if t == [] then []
    else if IsSlot(t[0]) then [DigitChar(Nibble(t[0], draws[0]))] + Fill(t[1..], draws[1..])
    else [t[0]] + Fill(t[1..], draws)
  }

  /** Filling keeps every character other than 'x' and 'y', writes a lower-case hex digit for
      each 'x' and one of 8, 9, a, b for each 'y'. */
  lemma {:induction false} FillShape(t: string, draws: seq<nat>)
    requires |draws| == SlotCount(t)
    requires forall k :: 0 <= k < |draws| ==> draws[k] < 16
    ensures |Fill(t, draws)| == |t|
    ensures forall j :: 0 <= j < |t| ==>
      (!IsSlot(t[j]) ==> Fill(t, draws)[j] == t[j])
      && (t[j] == 'x' ==> IsHex(Fill(t, draws)[j]) && !('A' <= Fill(t, draws)[j] <= 'F'))
      && (t[j] == 'y' ==> Fill(t, draws)[j] in "89ab")
  {
    if t != [] {
      var rest := if IsSlot(t[0]) then draws[1..] else draws;
      FillShape(t[1..], rest);
      var f := Fill(t, draws);
      assert f[1..] == Fill(t[1..], rest);
      forall j | 0 <= j < |t| ensures
        (!IsSlot(t[j]) ==> f[j] == t[j])
        && (t[j] == 'x' ==> IsHex(f[j]) && !('A' <= f[j] <= 'F'))
        && (t[j] == 'y' ==> f[j] in "89ab")
      {
        if j > 0 {
          assert f[j] == Fill(t[1..], rest)[j - 1] && t[j] == t[1..][j - 1];
        } else if IsSlot(t[0]) {
          var d := Nibble(t[0], draws[0]);
          assert f[0] == "0123456789abcdef"[d];
        }
      }
    }
  }

  function Xs(n: nat): (t: string)
    ensures |t| == n && forall j :: 0 <= j < n ==> t[j] == 'x'
  {
    seq(n, _ => 'x')
  }

  lemma {:induction false} SlotCountXs(n: nat)
    ensures SlotCount(Xs(n)) == n
  {
    if n > 0 {
      assert Xs(n)[1..] == Xs(n - 1);
      SlotCountXs(n - 1);
    }
  }

  lemma {:induction false} SlotCountConcat(a: string, b: string)
    ensures SlotCount(a + b) == SlotCount(a) + SlotCount(b)
  {
    if a != [] {
      assert (a + b)[0] == a[0] && (a + b)[1..] == a[1..] + b;
      SlotCountConcat(a[1..], b);
    } else {
      assert a + b == b;
    }
  }

  /** The template takes 31 draws: 30 for its 'x's and one for its 'y'. */
  lemma TemplateSlots()
    ensures SlotCount(Template) == 31
  {
    var t1 := Xs(8) + "-";
    var t2 := t1 + Xs(4);
    var t3 := t2 + "-4";
    var t4 := t3 + Xs(3);
    var t5 := t4 + "-y";
    var t6 := t5 + Xs(3);
    var t7 := t6 + "-";
    SlotCountXs(8); SlotCountXs(4); SlotCountXs(3); SlotCountXs(12);
    SlotCountConcat(Xs(8), "-");
    SlotCountConcat(t1, Xs(4));
    SlotCountConcat(t2, "-4");
    SlotCountConcat(t3, Xs(3));
    SlotCountConcat(t4, "-y");
    SlotCountConcat(t5, Xs(3));
    SlotCountConcat(t6, "-");
    SlotCountConcat(t7, Xs(12));
  }

  /** Every fill of the template has the UUID version 4 shape: version nibble 4 and a variant
      nibble in 8..b. */
  lemma TemplateIsUuidV4(draws: seq<nat>)
    requires |draws| == SlotCount(Template)
    requires forall k :: 0 <= k < |draws| ==> draws[k] < 16
    ensures IsUuidV4(Fill(Template, draws))
    ensures Fill(Template, draws)[14] == '4' && Fill(Template, draws)[19] in "89ab"
  {
    FillShape(Template, draws);
  }

  /** The browser's localStorage as the client's id functions see it. */
  class Browser {
    var localStorage: map<string, string>

    constructor (items: map<string, string>)
      ensures localStorage == items
    {
      localStorage := items;
    }

    /** `localStorage.getItem('USER_ID')`. */
    function StoredId(): (id: Option<string>)
      reads this
      ensures id.Some? <==> UserIdKey in localStorage
      ensures id.Some? ==> id.value == localStorage[UserIdKey]
    {
      if UserIdKey in localStorage then Some(localStorage[UserIdKey]) else None
    }

    /** `setUserIdLocal`: stores a non-empty id, removes the key for `null` or "". */
    method SetUserIdLocal(userId: Option<string>)
      modifies this
      ensures userId.Some? && userId.value != "" ==> localStorage == old(localStorage)[UserIdKey := userId.value]
      ensures !(userId.Some? && userId.value != "") ==> localStorage == old(localStorage) - {UserIdKey}
      ensures StoredId() == if userId.Some? && userId.value != "" then userId else None
    {
      if userId.Some? && userId.value != "" {
        localStorage := localStorage[UserIdKey := userId.value];
      } else {
        localStorage := localStorage - {UserIdKey};
      }
    }

    /** `getUserIdLocal`: exactly the stored value, `None` when there is none. */
    method GetUserIdLocal() returns (id: Option<string>)
      ensures id.Some? <==> UserIdKey in localStorage
      ensures id.Some? ==> id.value == localStorage[UserIdKey]
    {
      id := StoredId();
    }

    /** `ensureAnonymousUserId`: a stored id of the UUID version 4 shape comes back unchanged
        and nothing is written; otherwise the browser's `randomUUID` result (`None` when it is
        unavailable or throws), or failing that the template filled from `draws`, is stored and
        returned. */
    method EnsureAnonymousUserId(randomUuid: Option<string>, draws: seq<nat>) returns (id: string)
      requires |draws| == SlotCount(Template)
      requires forall k :: 0 <= k < |draws| ==> draws[k] < 16
      modifies this
      ensures old(StoredId()).Some? && IsUuidV4(old(StoredId()).value) ==>
        id == old(StoredId()).value && localStorage == old(localStorage)
      ensures !(old(StoredId()).Some? && IsUuidV4(old(StoredId()).value)) ==>
        localStorage == old(localStorage)[UserIdKey := id]
        && id == (if randomUuid.Some? && randomUuid.value != "" then randomUuid.value else Fill(Template, draws))
      ensures id != "" && StoredId() == Some(id)
      ensures randomUuid.None? || randomUuid.value == "" || IsUuidV4(randomUuid.value) ==> IsUuidV4(id)
    {
      var stored := GetUserIdLocal();
      if stored.Some? && stored.value != "" && IsUuidV4(stored.value) {
        return stored.value;
      }
      var newId := if randomUuid.Some? then randomUuid.value else "";
      if newId == "" {
        TemplateIsUuidV4(draws);
        newId := Fill(Template, draws);
      }
      id := newId;
      SetUserIdLocal(Some(id));
    }
  }
}
