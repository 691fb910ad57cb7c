/** The shared helpers: the `cn` class-name joiner and the ticket status labels. */
module Utils {
  import opened Text

  /** One argument of `cn`: a string, or one of the falsy non-strings. */
  datatype ClassArg = Str(s: string) | Undefined | Null | False

  /** `classes.filter(Boolean)`: the non-empty strings, in order. */
  function Kept(args: seq<ClassArg>): (r: seq<string>)
    ensures |r| <= |args|
    ensures forall i :: 0 <= i < |r| ==> r[i] != ""
  {
    if args == [] then []
    else if args[0].Str? && args[0].s != "" then [args[0].s] + Kept(args[1..])
    else Kept(args[1..])
  }

  /** Filtering distributes over concatenation, so order is kept. */
  lemma {:induction false} KeptAppend(a: seq<ClassArg>, b: seq<ClassArg>)
    ensures Kept(a + b) == Kept(a) + Kept(b)
  {
    if a == [] {
      assert a + b == b;
    } else {
      assert (a + b)[0] == a[0] && (a + b)[1..] == a[1..] + b;
      KeptAppend(a[1..], b);
    }
  }

  /** `cn(...classes)` */
  function Cn(args: seq<ClassArg>): string
  {
    Join(Kept(args), " ")
  }

  /** `cn()` is the empty string and `cn(s)` is s itself for non-empty s. */
  lemma CnSmall(s: string)
    ensures Cn([]) == ""
    ensures s != "" ==> Cn([Str(s)]) == s
  {
  }

  /** A falsy argument anywhere is ignored. */
  lemma {:induction false} CnDropsFalsy(a: seq<ClassArg>, x: ClassArg, b: seq<ClassArg>)
    requires !(x.Str? && x.s != "")
    ensures Cn(a + [x] + b) == Cn(a + b)
  {
    KeptDropsFalsy(a, x, b);
  }

  lemma {:induction false} KeptDropsFalsy(a: seq<ClassArg>, x: ClassArg, b: seq<ClassArg>)
    requires !(x.Str? && x.s != "")
    ensures Kept(a + [x] + b) == Kept(a + b)
  {
    assert Kept([x]) == [] by { assert [x][1..] == []; }
    KeptAppend(a + [x], b);
    KeptAppend(a, [x]);
    KeptAppend(a, b);
  }

  /** Joining two argument lists puts exactly one space between their classes. */
  lemma CnAppend(a: seq<ClassArg>, b: seq<ClassArg>)
    requires Kept(a) != [] && Kept(b) != []
    ensures Cn(a + b) == Cn(a) + " " + Cn(b)
  {
    KeptAppend(a, b);
    JoinAppend(Kept(a), Kept(b), " ");
  }

  /** `getDisplayTicketStatus`: the label of a ticket status. */
  function DisplayTicketStatus(status: string): (r: string)
    ensures status == "AVAILABLE" ==> r == "Доступен"
    ensures status == "RESERVED" ==> r == "Забронирован"
    ensures status == "SOLD" ==> r == "Продан"
    ensures status == "USED" ==> r == "Использован"
    ensures status !in {"AVAILABLE", "RESERVED", "SOLD", "USED"} ==> r == status
  {
    match status
    case "AVAILABLE" => "Доступен"
    case "RESERVED" => "Забронирован"
    case "SOLD" => "Продан"
    case "USED" => "Использован"
    case _ => status
  }

  /** The four known statuses get four different labels. */
  lemma DisplayTicketStatusInjective(a: string, b: string)
    requires a in {"AVAILABLE", "RESERVED", "SOLD", "USED"} && b in {"AVAILABLE", "RESERVED", "SOLD", "USED"}
    requires DisplayTicketStatus(a) == DisplayTicketStatus(b)
    ensures a == b
  {
  }
}
