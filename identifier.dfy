/** How `enter_phone_or_token` tells a bot auth token from a phone number:
    phone numbers contain no colon, bot tokens have one after their numeric
    bot id, so the argument is a token when its first ':' is not at index 0. */
module Identifier {

  /** Python's `s.find(c)` for a single character: the index of the first
      occurrence of `c` in `s`, or -1 when there is none. */
  function Find(s: string, c: char): (r: int)
    ensures -1 <= r < |s|
    ensures r == -1 <==> c !in s
    ensures 0 <= r ==> s[r] == c && c !in s[..r]
  {
    if |s| == 0 then -1
    else if s[0] == c then 0
    else
      var k := Find(s[1..], c);
      if k == -1 then -1
      else
        assert s[..k + 1] == [s[0]] + s[1..][..k];
        k + 1
  }

  /** The test `evt.args[0].find(":") > 0`: the argument is treated as a bot
      token exactly when it contains a colon and does not start with one. */
  predicate IsBotToken(arg: string): (r: bool)
    ensures r <==> |arg| > 0 && arg[0] != ':' && ':' in arg
  {
    Find(arg, ':') > 0
  }
}
