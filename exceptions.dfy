/**
 * The JVM exception classes that matter to the heart-rate workflow, with
 * their superclass links, and the catch arms of the workflow's try-expression.
 */
module Exceptions {
  import opened Wrappers

  /** The classes a thrown value can have (a closed excerpt of the JVM/Android hierarchy). */
  datatype ExceptionClass =
    | Throwable
    | Exception
    | Error
    | RuntimeException
    | AndroidException
    | RemoteException          // android.os.RemoteException
    | DeadObjectException      // android.os.DeadObjectException
    | SecurityException
    | IllegalStateException
    | CancellationException    // java.util.concurrent, what coroutine cancellation throws
    | IllegalArgumentException
    | NumberFormatException
    | DateTimeException
    | DateTimeParseException
    | IOException
    | FileNotFoundException
    | OutOfMemoryError

  /** A thrown value: its class and its message. */
  datatype Thrown = Thrown(cls: ExceptionClass, message: string)

  /** Distance from `Throwable` in the class tree. */
  function Depth(c: ExceptionClass): nat
  {
    match c
    case Throwable => 0
    case Exception => 1
    case Error => 1
    case RuntimeException => 2
    case AndroidException => 2
    case IOException => 2
    case OutOfMemoryError => 2
    case RemoteException => 3
    case SecurityException => 3
    case IllegalStateException => 3
    case IllegalArgumentException => 3
    case DateTimeException => 3
    case FileNotFoundException => 3
    case DeadObjectException => 4
    case CancellationException => 4
    case NumberFormatException => 4
    case DateTimeParseException => 4
  }

  /** The direct superclass; only `Throwable` has none. */
  function Parent(c: ExceptionClass): (p: Option<ExceptionClass>)
    ensures p.None? <==> c == Throwable
    ensures p.Some? ==> Depth(p.value) + 1 == Depth(c)
  {
    match c
    case Throwable => None
    case Exception => Some(Throwable)
    case Error => Some(Throwable)
    case RuntimeException => Some(Exception)
    case AndroidException => Some(Exception)
    case IOException => Some(Exception)
    case OutOfMemoryError => Some(Error)
    case RemoteException => Some(AndroidException)
    case SecurityException => Some(RuntimeException)
    case IllegalStateException => Some(RuntimeException)
    case IllegalArgumentException => Some(RuntimeException)
    case DateTimeException => Some(RuntimeException)
    case FileNotFoundException => Some(IOException)
    case DeadObjectException => Some(RemoteException)
    case CancellationException => Some(IllegalStateException)
    case NumberFormatException => Some(IllegalArgumentException)
    case DateTimeParseException => Some(DateTimeException)
  }

  /** `c` is `a` or a subclass of `a`: what a `catch (e: a)` arm tests. */
  predicate IsA(c: ExceptionClass, a: ExceptionClass)
    decreases Depth(c)
  {
    c == a || (Parent(c).Some? && IsA(Parent(c).value, a))
  }

  /** Subclassing is transitive: a subclass of a subclass of `c` is a subclass of `c`. */
  lemma {:induction false} IsATransitive(a: ExceptionClass, b: ExceptionClass, c: ExceptionClass)
    requires IsA(a, b) && IsA(b, c)
    ensures IsA(a, c)
    decreases Depth(a)
  {
    if a != b {
      IsATransitive(Parent(a).value, b, c);
    }
  }

  /** The superclasses of one class form a chain: any two of them are related. */
  lemma {:induction false} IsAChain(c: ExceptionClass, a: ExceptionClass, b: ExceptionClass)
    requires IsA(c, a) && IsA(c, b)
    ensures IsA(a, b) || IsA(b, a)
    decreases Depth(c)
  {
    if c != a && c != b {
      IsAChain(Parent(c).value, a, b);
    }
  }

  /** Index of the first arm of `arms` that catches a value of class `c`, as Kotlin tries catch arms in order. */
  function FirstCatchingArm(arms: seq<ExceptionClass>, c: ExceptionClass): (r: Option<nat>)
    ensures r.Some? ==> r.value < |arms| && IsA(c, arms[r.value])
    ensures r.Some? ==> forall j :: 0 <= j < r.value ==> !IsA(c, arms[j])
    ensures r.None? ==> forall j :: 0 <= j < |arms| ==> !IsA(c, arms[j])
  {
    if arms == [] then None
    else if IsA(c, arms[0]) then Some(0)
    else
      match FirstCatchingArm(arms[1..], c)
      case None => None
      case Some(k) => Some(k + 1)
  }

  /** The catch arms of the workflow's try-expression, in source order. */
  const WorkflowCatchArms: seq<ExceptionClass> :=
    [RemoteException, SecurityException, IOException, IllegalStateException]

  /** A value of class `c` thrown by the guarded action is turned into an error state. */
  predicate CaughtByWorkflow(c: ExceptionClass)
  {
    IsA(c, RemoteException) || IsA(c, SecurityException) || IsA(c, IOException) || IsA(c, IllegalStateException)
  }

  /** The index of the workflow's catch arm that handles class `c`, if any. */
  function ArmOf(c: ExceptionClass): Option<nat>
  {
    FirstCatchingArm(WorkflowCatchArms, c)
  }

  /** The classes the workflow turns into an error state: the four arms and their subclasses. */
  const WorkflowCaughtClasses: set<ExceptionClass> :=
    {RemoteException, DeadObjectException, SecurityException, IOException,
     FileNotFoundException, IllegalStateException, CancellationException}

  /** Every class in `WorkflowCaughtClasses` is caught by some arm. */
  lemma WorkflowCatches(c: ExceptionClass)
    requires c in WorkflowCaughtClasses
    ensures CaughtByWorkflow(c)
  {
  }

  /** Every other class escapes all four arms. */
  lemma WorkflowLetsEscape(c: ExceptionClass)
    requires c !in WorkflowCaughtClasses
    ensures !CaughtByWorkflow(c)
  {
  }

  /** The arm that `ArmOf` picks exists exactly when the workflow catches the class. */
  lemma ArmOfIffCaught(c: ExceptionClass)
    ensures ArmOf(c).Some? <==> CaughtByWorkflow(c)
  {
    var r := ArmOf(c);
    if r.None? {
      assert !IsA(c, WorkflowCatchArms[0]) && !IsA(c, WorkflowCatchArms[1]);
      assert !IsA(c, WorkflowCatchArms[2]) && !IsA(c, WorkflowCatchArms[3]);
    }
  }

  /** Coroutine cancellation is caught by the `IllegalStateException` arm, the fourth one. */
  lemma CancellationCaughtAsIllegalState()
    ensures FirstCatchingArm(WorkflowCatchArms, CancellationException) == Some(3)
  {
  }

  /** A subclass of a caught class is caught too, however far down the tree it sits. */
  lemma {:induction false} CaughtClosedUnderSubclass(c: ExceptionClass, d: ExceptionClass)
    requires IsA(c, d) && CaughtByWorkflow(d)
    ensures CaughtByWorkflow(c)
    decreases Depth(c)
  {
    if c != d {
      CaughtClosedUnderSubclass(Parent(c).value, d);
    }
  }

  /** No arm class is a subclass of another. */
  lemma ArmsUnrelated()
    ensures forall i, j :: 0 <= i < |WorkflowCatchArms| && 0 <= j < |WorkflowCatchArms| && i != j ==>
      !IsA(WorkflowCatchArms[i], WorkflowCatchArms[j])
  {
  }

  /** No class matches two arms, so the order of the arms does not decide which one catches. */
  lemma OneArmCatches(c: ExceptionClass, i: nat, j: nat)
    requires i < |WorkflowCatchArms| && j < |WorkflowCatchArms|
    requires IsA(c, WorkflowCatchArms[i]) && IsA(c, WorkflowCatchArms[j])
    ensures i == j
  {
    IsAChain(c, WorkflowCatchArms[i], WorkflowCatchArms[j]);
    ArmsUnrelated();
  }

  /** A subclass of a class some arm catches is handled by that same arm. */
  lemma SubclassSameArm(c: ExceptionClass, d: ExceptionClass)
    requires IsA(c, d) && ArmOf(d).Some?
    ensures ArmOf(c) == ArmOf(d)
  {
    var i := ArmOf(d).value;
    IsATransitive(c, d, WorkflowCatchArms[i]);
    var j := ArmOf(c).value;
    OneArmCatches(c, i, j);
  }
}
