/**
 * The bottom bar of the viewer: three buttons that turn the displayed object
 * to the front, a quarter turn left or a quarter turn right, an update step
 * that eases the object towards its target orientation, and three labels that
 * highlight the button last pressed.
 *
 * Rotations are an abstract type. The engine's rotation maths (building a
 * rotation from Euler angles, reading back the z angle, stepping towards a
 * target, measuring the angle between two rotations) are parameters of the
 * component, so every property below holds whatever that maths computes.
 */
module BottomBar {

  // ---------------------------------------------------------------------------
  // Labels

  newtype byte = x: int | 0 <= x < 256

  /** A 32-bit colour, one byte per channel. */
  datatype Color32 = Color32(r: byte, g: byte, b: byte, a: byte)

  const White := Color32(255, 255, 255, 255)
  const Grey := Color32(100, 100, 100, 255)

  /** The text and colour a button label shows. */
  datatype Label = Label(text: string, color: Color32)

  /** The three labels of the bar. */
  datatype BarLabels = BarLabels(left: Label, right: Label, front: Label)

  /** A button, known to the label logic only by its game object's name. */
  datatype Button = Button(name: string)

  const LeftLong := "< Left"
  const LeftShort := "<"
  const RightLong := "Right >"
  const RightShort := ">"
  const FrontLong := "· Front ·"
  const FrontShort := "·"

  /** Ordinal substring test: `part` occurs somewhere in `s`. */
  predicate Contains(s: string, part: string): (b: bool)
    ensures part <= s ==> b
    ensures b ==> |part| <= |s|
    decreases |s|
  {
    part <= s || (s != [] && Contains(s[1..], part))
  }

  /** `part` occurs in `s` starting at index `i`. */
  predicate OccursAt(s: string, part: string, i: int) {
    0 <= i && i + |part| <= |s| && s[i..i + |part|] == part
  }

  /** An occurrence in the tail of `s` is an occurrence in `s`, one index further on. */
  lemma OccursShift(s: string, part: string, i: int)
    requires s != [] && 0 <= i
    ensures OccursAt(s[1..], part, i) <==> OccursAt(s, part, i + 1)
  {
    if i + |part| <= |s[1..]| {
      assert s[1..][i..i + |part|] == s[i + 1..i + 1 + |part|];
    }
  }

  /** `Contains` finds `part` exactly when it occurs at some index of `s`. */
  lemma {:induction false} ContainsOccurs(s: string, part: string)
    ensures Contains(s, part) <==> exists i :: OccursAt(s, part, i)
    decreases |s|
  {
    if part <= s {
      assert OccursAt(s, part, 0);
    } else if s != [] {
      ContainsOccurs(s[1..], part);
      if Contains(s[1..], part) {
        var i :| OccursAt(s[1..], part, i);
        OccursShift(s, part, i);
      }
      if exists i :: OccursAt(s, part, i) {
        var i :| OccursAt(s, part, i);
        assert i != 0;
        OccursShift(s, part, i - 1);
      }
    }
  }

  /** A label's text and colour: the long text in white when highlighted, else the short text in grey. */
  function Highlight(on: bool, long: string, short: string): (l: Label)
    ensures l.color == White <==> on
    ensures l.color == White || l.color == Grey
    ensures long != short ==> (l.text == long <==> on)
  {
    if on then Label(long, White) else Label(short, Grey)
  }

  /**
   * The labels after the button called `name` was pressed: each label is
   * highlighted exactly when the name contains its word.
   */
  function LabelsFor(name: string): (ls: BarLabels)
    ensures ls.left.text == LeftLong <==> Contains(name, "Left")
    ensures ls.right.text == RightLong <==> Contains(name, "Right")
    ensures ls.front.text == FrontLong <==> Contains(name, "Front")
    ensures ls.left.text == LeftLong || ls.left.text == LeftShort
    ensures ls.right.text == RightLong || ls.right.text == RightShort
    ensures ls.front.text == FrontLong || ls.front.text == FrontShort
    ensures ls.left.color == White <==> ls.left.text == LeftLong
    ensures ls.right.color == White <==> ls.right.text == RightLong
    ensures ls.front.color == White <==> ls.front.text == FrontLong
    ensures ls.left.color == (if Contains(name, "Left") then White else Grey)
    ensures ls.right.color == (if Contains(name, "Right") then White else Grey)
    ensures ls.front.color == (if Contains(name, "Front") then White else Grey)
  {
    BarLabels(
      Highlight(Contains(name, "Left"), LeftLong, LeftShort),
      Highlight(Contains(name, "Right"), RightLong, RightShort),
      Highlight(Contains(name, "Front"), FrontLong, FrontShort))
  }

  function WhiteCount(ls: BarLabels): (n: nat)
    ensures n <= 3
  {
    (if ls.left.color == White then 1 else 0) +
    (if ls.right.color == White then 1 else 0) +
    (if ls.front.color == White then 1 else 0)
  }

  /** The number of highlighted labels is the number of the three words the name contains. */
  lemma HighlightCount(name: string)
    ensures WhiteCount(LabelsFor(name)) ==
      (if Contains(name, "Left") then 1 else 0) +
      (if Contains(name, "Right") then 1 else 0) +
      (if Contains(name, "Front") then 1 else 0)
  {
  }

  /** A button whose name contains exactly one of the three words highlights exactly that label. */
  lemma ExactlyOneHighlighted(name: string)
    requires Contains(name, "Left") ==> !Contains(name, "Right") && !Contains(name, "Front")
    requires Contains(name, "Right") ==> !Contains(name, "Front")
    requires Contains(name, "Left") || Contains(name, "Right") || Contains(name, "Front")
    ensures WhiteCount(LabelsFor(name)) == 1
  {
    HighlightCount(name);
  }

  // ---------------------------------------------------------------------------
  // The component

  class BottomBarManager<Rotation(==)> {
    const frontButton: Button
    const leftButton: Button
    const rightButton: Button

    /** The engine's rotation maths. */
    const euler: (real, real, real) -> Rotation
    const eulerZ: Rotation -> real
    const rotateTowards: (Rotation, Rotation, real) -> Rotation
    const angle: (Rotation, Rotation) -> real

    /** The object's orientation when the component woke up. */
    const initialRotation: Rotation
    /** Degrees per second. */
    const rotationSpeed: real := 150.0

    /** The orientation of the object being turned. */
    var objectRotation: Rotation
    var targetRotation: Rotation
    var isRotating: bool

    var leftButtonText: Label
    var rightButtonText: Label
    var frontButtonText: Label

    /** Whenever the object is not turning, it rests at its target. */
    predicate Valid()
      reads this
    {
      !isRotating ==> objectRotation == targetRotation
    }

    /** Wake-up: the object's current orientation becomes the initial rotation and the target. */
    constructor (frontButton: Button, leftButton: Button, rightButton: Button, objectRotation: Rotation,
                 euler: (real, real, real) -> Rotation, eulerZ: Rotation -> real,
                 rotateTowards: (Rotation, Rotation, real) -> Rotation, angle: (Rotation, Rotation) -> real,
                 leftText: Label, rightText: Label, frontText: Label)
      ensures Valid()
      ensures initialRotation == objectRotation && targetRotation == objectRotation
      ensures this.objectRotation == objectRotation && !isRotating
      ensures this.frontButton == frontButton && this.leftButton == leftButton && this.rightButton == rightButton
      ensures this.euler == euler && this.eulerZ == eulerZ
      ensures this.rotateTowards == rotateTowards && this.angle == angle
      ensures leftButtonText == leftText && rightButtonText == rightText && frontButtonText == frontText
    {
      this.frontButton := frontButton;
      this.leftButton := leftButton;
      this.rightButton := rightButton;
      this.euler := euler;
      this.eulerZ := eulerZ;
      this.rotateTowards := rotateTowards;
      this.angle := angle;
      initialRotation := objectRotation;
      this.objectRotation := objectRotation;
      targetRotation := objectRotation;
      isRotating := false;
      leftButtonText := leftText;
      rightButtonText := rightText;
      frontButtonText := frontText;
    }

    function Labels(): BarLabels
      reads this
    {
      BarLabels(leftButtonText, rightButtonText, frontButtonText)
    }

    /**
     * One frame. While turning, the object steps towards the target by at
     * most `rotationSpeed * deltaTime` degrees; once it is within 0.01 degrees
     * it is snapped onto the target and the turn ends. When not turning,
     * nothing changes.
     */
    method Update(deltaTime: real)
      requires Valid()
      modifies this
      ensures Valid()
      ensures !old(isRotating) ==> objectRotation == old(objectRotation) && !isRotating
      ensures old(isRotating) ==>
        var stepped := rotateTowards(old(objectRotation), targetRotation, rotationSpeed * deltaTime);
        if angle(stepped, targetRotation) < 0.01 then objectRotation == targetRotation && !isRotating
        else objectRotation == stepped && isRotating
      ensures targetRotation == old(targetRotation) && Labels() == old(Labels())
    {
      if isRotating {
        objectRotation := rotateTowards(objectRotation, targetRotation, rotationSpeed * deltaTime);
        if angle(objectRotation, targetRotation) < 0.01 {
          objectRotation := targetRotation;
          isRotating := false;
        }
      }
    }

    /** Turns the object a further `angle` degrees about z from where it is now, with x at 90 and y at 0. */
    method RotateObject(angle: real, button: Button)
      requires Valid()
      modifies this
      ensures Valid()
      ensures targetRotation == euler(90.0, 0.0, eulerZ(old(objectRotation)) + angle) && isRotating
      ensures objectRotation == old(objectRotation)
      ensures Labels() == LabelsFor(button.name)
    {
      SetRotation(euler(90.0, 0.0, eulerZ(objectRotation) + angle), button);
    }

    /** Starts a turn to `newRotation`, replacing any turn in progress, and highlights `button`. */
    method SetRotation(newRotation: Rotation, button: Button)
      requires Valid()
      modifies this
      ensures Valid()
      ensures targetRotation == newRotation && isRotating
      ensures objectRotation == old(objectRotation)
      ensures Labels() == LabelsFor(button.name)
    {
      targetRotation := newRotation;
      isRotating := true;
      ChangeTextFromButton(button);
    }

    /** Highlights the label of the button called like `button`, and only that one. */
    method ChangeTextFromButton(button: Button)
      modifies this
      ensures Labels() == LabelsFor(button.name)
      ensures objectRotation == old(objectRotation) && targetRotation == old(targetRotation)
      ensures isRotating == old(isRotating)
    {
      var isLeft := Contains(button.name, "Left");
      var isRight := Contains(button.name, "Right");
      var isFront := Contains(button.name, "Front");

      leftButtonText := leftButtonText.(text := if isLeft then LeftLong else LeftShort);
      rightButtonText := rightButtonText.(text := if isRight then RightLong else RightShort);
      frontButtonText := frontButtonText.(text := if isFront then FrontLong else FrontShort);

      leftButtonText := leftButtonText.(color := if isLeft then White else Grey);
      rightButtonText := rightButtonText.(color := if isRight then White else Grey);
      frontButtonText := frontButtonText.(color := if isFront then White else Grey);
    }

    /** The front button turns the object back to the orientation it woke up with. */
    method ClickFront()
      requires Valid()
      modifies this
      ensures Valid()
      ensures targetRotation == initialRotation && isRotating
      ensures objectRotation == old(objectRotation)
      ensures Labels() == LabelsFor(frontButton.name)
    {
      SetRotation(initialRotation, frontButton);
    }

    /** The left button turns the object a quarter turn further, to z minus 90 degrees. */
    method ClickLeft()
      requires Valid()
      modifies this
      ensures Valid()
      ensures targetRotation == euler(90.0, 0.0, eulerZ(old(objectRotation)) - 90.0) && isRotating
      ensures objectRotation == old(objectRotation)
      ensures Labels() == LabelsFor(leftButton.name)
    {
      RotateObject(-90.0, leftButton);
    }

    /** The right button turns the object a quarter turn further, to z plus 90 degrees. */
    method ClickRight()
      requires Valid()
      modifies this
      ensures Valid()
      ensures targetRotation == euler(90.0, 0.0, eulerZ(old(objectRotation)) + 90.0) && isRotating
      ensures objectRotation == old(objectRotation)
      ensures Labels() == LabelsFor(rightButton.name)
    {
      RotateObject(90.0, rightButton);
    }
  }
}
