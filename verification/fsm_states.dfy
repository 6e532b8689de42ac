/** The eight states of the device's USB control-pipe state machine and the
    static label table that maps each state code to the annotation payload
    handed to the annotation sink. */
module FsmStates {
  import opened Results

  /** The enumeration of device states, declared in code order 0..7. */
  datatype FsmState =
    | Undefined
    | Idle
    | SetupReceived
    | DataIn
    | StatusOut
    | DataOut
    | StatusIn
    | Error

  /** The state whose integer value is `k`, if there is one. */
  function StateOf(k: int): (r: Option<FsmState>)
    ensures r.Some? <==> 0 <= k < 8
  {
    if k == 0 then Some(Undefined)
    else if k == 1 then Some(Idle)
    else if k == 2 then Some(SetupReceived)
    else if k == 3 then Some(DataIn)
    else if k == 4 then Some(StatusOut)
    else if k == 5 then Some(DataOut)
    else if k == 6 then Some(StatusIn)
    else if k == 7 then Some(Error)
    else None
  }

  /** The integer value of a state: a code in 0..7 that names it back. */
  function Code(s: FsmState): (k: nat)
    ensures k < 8
    ensures StateOf(k) == Some(s)
  {
    match s
    case Undefined => 0
    case Idle => 1
    case SetupReceived => 2
    case DataIn => 3
    case StatusOut => 4
    case DataOut => 5
    case StatusIn => 6
    case Error => 7
  }

  /** The enumerator's own name, used for the long and short display strings. */
  function Name(s: FsmState): string
  {
    match s
    case Undefined => "e_Undefined"
    case Idle => "e_Idle"
    case SetupReceived => "e_SetupReceived"
    case DataIn => "e_DataIn"
    case StatusOut => "e_StatusOut"
    case DataOut => "e_DataOut"
    case StatusIn => "e_StatusIn"
    case Error => "e_Error"
  }

  /** The decimal digit of a number below ten, as a one-character string. */
  function Digit(k: nat): (d: string)
    requires k < 10
    ensures |d| == 1 && '0' <= d[0] <= '9'
  {
    [('0' as int + k) as char]
  }

  /** An annotation payload: the annotation class (the state itself) and its
      display strings, long name first, then short name, three-letter code
      and numeric string. */
  datatype Entry = Entry(annotation: FsmState, texts: seq<string>)

  /** The label table exactly as the decoder declares it, including its
      numeric strings '3' and '4' being swapped between DataIn and StatusOut. */
  const Values: map<int, Entry> := map[
    0 := Entry(Undefined, ["e_Undefined = 0", "e_Undefined", "UND", "0"]),
    1 := Entry(Idle, ["e_Idle = 1", "e_Idle", "IDL", "1"]),
    2 := Entry(SetupReceived, ["e_SetupReceived = 2", "e_SetupReceived", "SRX", "2"]),
    4 := Entry(StatusOut, ["e_StatusOut = 4", "e_StatusOut", "STO", "3"]),
    3 := Entry(DataIn, ["e_DataIn = 3", "e_DataIn", "DIN", "4"]),
    5 := Entry(DataOut, ["e_DataOut = 5", "e_DataOut", "DOT", "5"]),
    6 := Entry(StatusIn, ["e_StatusIn = 6", "e_StatusIn", "STI", "6"]),
    7 := Entry(Error, ["e_Error = 7", "e_Error", "ERR", "7"])
  ]

  /** Looking a code up in the label table: present exactly for the eight
      state codes, and the entry found is the annotation class of that code. */
  function Lookup(k: int): (r: Option<Entry>)
    ensures r.Some? <==> 0 <= k < 8
    ensures r.Some? ==> Code(r.value.annotation) == k
  {
    if k in Values then Some(Values[k]) else None
  }

  /** The number the table displays for code `k`: the code itself, except
      that codes 3 and 4 display each other's number. */
  function DisplayNumber(k: nat): (n: nat)
    requires k < 8
    ensures n < 8
    ensures n == k <==> k != 3 && k != 4
    ensures k == 3 || k == 4 ==> n == 7 - k
  {
    if k == 3 then 4 else if k == 4 then 3 else k
  }

  /** Every table entry is derived from its key: the annotation class is the
      state with that code, the long name is "<name> = <code>", the short
      name is the enumerator's name, and the numeric string is the code's
      digit except for the swapped pair 3 and 4. */
  lemma EntryMatchesCode(k: int)
    requires 0 <= k < 8
    ensures Lookup(k).Some?
    ensures var e := Lookup(k).value;
      && Some(e.annotation) == StateOf(k)
      && |e.texts| == 4
      && e.texts[0] == Name(e.annotation) + " = " + Digit(k)
      && e.texts[1] == Name(e.annotation)
      && e.texts[3] == Digit(DisplayNumber(k))
  {
  }

  /** The numeric display string of an entry is its own code's digit exactly
      when the code is neither 3 nor 4. */
  lemma NumericStringIsCodeUnlessSwapped(k: int)
    requires 0 <= k < 8
    ensures Lookup(k).Some?
    ensures Lookup(k).value.texts[3] == Digit(k) <==> k != 3 && k != 4
  {
  }
}
