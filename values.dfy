/** JavaScript values and open records, as the components and stores see them. */
module Values {

  datatype Option<+T> = None | Some(value: T) {
    function GetOr(default: T): T {
      if Some? then value else default
    }
  }

  /** A JavaScript value held in an entity record. Numbers are integers;
      `Date(time)` is a Date object holding its epoch milliseconds. */
  datatype Value = Undefined | Null | Bool(b: bool) | Num(n: int) | Str(s: string) | Date(time: int)

  /** An open, string-keyed JavaScript object (`{ [key: string]: any }`). */
  type Record = map<string, Value>

  /** Property access `r[key]`: a missing key reads as `undefined`. */
  function Get(r: Record, key: string): Value {
    if key in r then r[key] else Undefined
  }

  /** JavaScript truthiness (NaN is not representable here). */
  predicate Truthy(v: Value) {
    match v
    case Undefined => false
    case Null => false
    case Bool(b) => b
    case Num(n) => n != 0
    case Str(s) => s != ""
    case Date(_) => true
  }

  /** `a || b` */
  function Or(a: Value, b: Value): Value {
    if Truthy(a) then a else b
  }

  /** `String(r[key] || '')`, the text a form input shows for a field. */
  function InputText(r: Record, key: string): (t: string)
    ensures !Truthy(Get(r, key)) ==> t == ""
    ensures Get(r, key).Str? ==> t == Get(r, key).s
  {
    ToJsString(Or(Get(r, key), Str("")))
  }

  /** `x || 0` on a numeric field, as an integer. A truthy non-number is read as 0. */
  function NumberOrZero(v: Value): (n: int)
    ensures !Truthy(v) ==> n == 0
    ensures v.Num? ==> n == v.n
  {
    if v.Num? then v.n else 0
  }

  function LowerChar(c: char): char {
    if 'A' <= c <= 'Z' then (c as int + 32) as char else c
  }

  function UpperChar(c: char): char {
    if 'a' <= c <= 'z' then (c as int - 32) as char else c
  }

  /** `s.toLowerCase()` on ASCII letters. */
  function Lower(s: string): (r: string)
    ensures |r| == |s|
    ensures forall i :: 0 <= i < |s| ==> r[i] == LowerChar(s[i])
  {
    seq(|s|, i requires 0 <= i < |s| => LowerChar(s[i]))
  }

  /** `s.charAt(0).toUpperCase() + s.slice(1)` */
  function Capitalize(s: string): (r: string)
    ensures |r| == |s|
    ensures s != [] ==> r[0] == UpperChar(s[0]) && r[1..] == s[1..]
  {
    if s == [] then [] else [UpperChar(s[0])] + s[1..]
  }

  function DigitChar(d: nat): char
    requires d < 10
  {
    "0123456789"[d]
  }

  function NatToString(n: nat): (r: string)
    ensures |r| >= 1
    decreases n
  {
    if n < 10 then [DigitChar(n)] else NatToString(n / 10) + [DigitChar(n % 10)]
  }

  /** `String(v)`. A Date is rendered by its time value: the locale text of
      `Date.prototype.toString` is not modelled. */
  function ToJsString(v: Value): string {
    match v
    case Undefined => "undefined"
    case Null => "null"
    case Bool(b) => if b then "true" else "false"
    case Num(n) => if n < 0 then "-" + NatToString(-n) else NatToString(n)
    case Str(s) => s
    case Date(t) => if t < 0 then "-" + NatToString(-t) else NatToString(t)
  }

  /** `new Date(v).getTime()`: a Date or a number is taken as it is, `null`
      and booleans are converted to numbers, any other value is converted to
      a string and read by `parse`. */
  function TimeOf(v: Value, parse: string -> int): (t: int)
    ensures v.Date? ==> t == v.time
    ensures v.Num? ==> t == v.n
    ensures v.Null? ==> t == 0
    ensures v.Bool? ==> t == if v.b then 1 else 0
  {
    match v
    case Date(t) => t
    case Num(n) => n
    case Null => 0
    case Bool(b) => if b then 1 else 0
    case _ => parse(ToJsString(v))
  }

  /** The status names the tables compare against, lower-cased. */
  lemma LowerTodo()
    ensures Lower("todo") == "todo" && Lower("Todo") == "todo"
  {
    assert forall i :: 0 <= i < 4 ==> Lower("todo")[i] == "todo"[i];
    assert forall i :: 0 <= i < 4 ==> Lower("Todo")[i] == "todo"[i];
  }

  lemma LowerCompleted()
    ensures Lower("completed") == "completed"
  {
    assert forall i :: 0 <= i < 9 ==> Lower("completed")[i] == "completed"[i];
  }

  lemma LowerCompletedLabel()
    ensures Lower("Completed") == "completed"
  {
    assert forall i :: 0 <= i < 9 ==> Lower("Completed")[i] == "completed"[i];
  }

  lemma LowerInProgress()
    ensures Lower("in_progress") == "in_progress"
  {
    assert forall i :: 0 <= i < 11 ==> Lower("in_progress")[i] == "in_progress"[i];
  }

  lemma LowerInProgressLabel()
    ensures Lower("In Progress") == "in progress"
  {
    var r := Lower("In Progress");
    assert r[0] == 'i' && r[1] == 'n' && r[2] == ' ' && r[3] == 'p';
    assert r[4] == 'r' && r[5] == 'o' && r[6] == 'g' && r[7] == 'r';
    assert r[8] == 'e' && r[9] == 's' && r[10] == 's';
  }

  /** The stored status names are already lower case. */
  lemma LowerOfStoredNames()
    ensures Lower("todo") == "todo" && Lower("completed") == "completed" && Lower("in_progress") == "in_progress"
  {
    LowerTodo();
    LowerCompleted();
    LowerInProgress();
  }

  /** The display labels lower-cased. */
  lemma LowerOfLabels()
    ensures Lower("Todo") == "todo" && Lower("Completed") == "completed" && Lower("In Progress") == "in progress"
  {
    LowerTodo();
    LowerCompletedLabel();
    LowerInProgressLabel();
  }
}
