/**
 * `onlyNumbers`: the keypress filter on the numeric inputs. The key code is
 * `event.which` when that is non-zero, otherwise `event.keyCode`; the key is
 * allowed exactly when the code is that of an ASCII digit.
 */
module KeyFilter {

  /** The code the filter tests: `event.which ? event.which : event.keyCode`. */
  function KeyCodeOf(which: int, keyCode: int): (code: int)
    ensures which != 0 ==> code == which
    ensures which == 0 ==> code == keyCode
  {
    if which != 0 then which else keyCode
  }

  /** `onlyNumbers(event)`. */
  function OnlyNumbers(which: int, keyCode: int): (allowed: bool)
    ensures allowed <==> 48 <= KeyCodeOf(which, keyCode) <= 57
    ensures allowed <==> '0' as int <= KeyCodeOf(which, keyCode) <= '9' as int
  {
    var code := KeyCodeOf(which, keyCode);
    if code < 48 || code > 57 then false else true
  }

  /** Codes below that of `0` are refused. */
  lemma BelowDigitsRejected(which: int, keyCode: int)
    requires KeyCodeOf(which, keyCode) < 48
    ensures !OnlyNumbers(which, keyCode)
  {
  }

  /** Codes above that of `9` are refused. */
  lemma AboveDigitsRejected(which: int, keyCode: int)
    requires KeyCodeOf(which, keyCode) > 57
    ensures !OnlyNumbers(which, keyCode)
  {
  }

  /** The filter accepts a character's code exactly when the character is a digit. */
  lemma DigitKeysAccepted(c: char)
    ensures OnlyNumbers(c as int, 0) <==> '0' <= c <= '9'
  {
  }
}
