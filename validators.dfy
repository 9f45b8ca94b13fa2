/** The input checks and the content split used inside the wizard steps
    of the admin panel. */
module Validators {
  import opened Strings
  import opened Records

  const ChannelPrefix: string := "-100"

  /** `text.startswith("-100") and text[1:].isdigit()`: the prefix and
      then nothing but digits. */
  function IsChannelIdText(t: string): (ok: bool)
    ensures ok <==> |t| >= |ChannelPrefix| && t[..|ChannelPrefix|] == ChannelPrefix
                    && AllDigits(t[|ChannelPrefix|..])
  {
    var ok := StartsWith(t, ChannelPrefix) && IsDigits(t[1..]);
    assert ok ==> AllDigits(t[|ChannelPrefix|..]) by {
      if ok {
        forall i | 0 <= i < |t| - |ChannelPrefix|
          ensures IsAsciiDigit(t[|ChannelPrefix|..][i])
        {
          assert t[|ChannelPrefix|..][i] == t[1..][i + 3];
        }
      }
    }
    assert StartsWith(t, ChannelPrefix) && AllDigits(t[|ChannelPrefix|..]) ==> IsDigits(t[1..]) by {
      if StartsWith(t, ChannelPrefix) && AllDigits(t[|ChannelPrefix|..]) {
        forall i | 0 <= i < |t| - 1
          ensures IsAsciiDigit(t[1..][i])
        {
          if i < 3 {
            assert t[1..][i] == t[..|ChannelPrefix|][i + 1];
          } else {
            assert t[1..][i] == t[|ChannelPrefix|..][i - 3];
          }
        }
      }
    }
    ok
  }

  /** `int(text)` for an accepted channel id: a channel-shaped number,
      at most -100. */
  function ParseChannelId(t: string): (id: int)
    requires IsChannelIdText(t)
    ensures id <= -100
  {
    var digits := t[1..];
    assert digits[..3] == "100";
    assert "100"[..2] == "10" && "10"[..1] == "1" && "1"[..0] == "";
    DigitsValuePrefix(digits, 3);
    -(DigitsValue(digits) as int)
  }

  /** `text.isdigit()`. */
  predicate IsAdminIdText(t: string) {
    IsDigits(t)
  }

  /** `int(text)` for an accepted admin id. */
  function ParseAdminId(t: string): nat
    requires IsAdminIdText(t)
  {
    DigitsValue(t)
  }

  /** `text.startswith(('http://', 'https://'))`. */
  predicate IsButtonUrl(t: string) {
    StartsWith(t, "http://") || StartsWith(t, "https://")
  }

  /** The (text, photo) pair a welcome, goodbye or post message yields:
      a photo gives its caption and file id, a text gives the text and no
      photo. */
  function SplitContent(m: Msg): (Option<string>, Option<string>) {
    match m
    case Photo(f, caption) => (caption, Some(f))
    case Text(t) => (Some(t), None)
  }

  /** The bare prefix is accepted: the digit check starts after the sign. */
  lemma BarePrefixIsChannelId()
    ensures IsChannelIdText("-100") && ParseChannelId("-100") == -100
  {
    assert "-100"[1..] == "100";
    assert "100"[..2] == "10" && "10"[..1] == "1" && "1"[..0] == "";
  }

  /** The decimal rendering of an accepted channel id is exactly the text
      that was sent, so distinct accepted texts are stored as distinct ids. */
  lemma {:induction false} ChannelIdRoundTrip(t: string)
    requires IsChannelIdText(t)
    ensures "-" + Decimal(-ParseChannelId(t)) == t
  {
    var digits := t[1..];
    assert digits[0] == '1';
    DecimalRoundTrip(digits);
    assert t == "-" + digits;
  }

  lemma ChannelIdTextsInjective(t: string, u: string)
    requires IsChannelIdText(t) && IsChannelIdText(u)
    requires ParseChannelId(t) == ParseChannelId(u)
    ensures t == u
  {
    ChannelIdRoundTrip(t);
    ChannelIdRoundTrip(u);
  }

  /** `int()` ignores leading zeros, so "007" and "7" promote the same
      user. */
  lemma AdminIdLeadingZeros(t: string)
    requires IsAdminIdText(t)
    ensures IsAdminIdText("0" + t) && ParseAdminId("0" + t) == ParseAdminId(t)
  {
    assert ("0" + t)[0] == '0' && forall i | 1 <= i < |"0" + t| :: ("0" + t)[i] == t[i - 1];
    LeadingZeroValue(t);
  }

  /** An admin id without a leading zero reads back as the same text. */
  lemma AdminIdRoundTrip(t: string)
    requires IsAdminIdText(t) && t[0] != '0'
    ensures Decimal(ParseAdminId(t)) == t
  {
    DecimalRoundTrip(t);
  }
}
