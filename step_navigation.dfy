/**
 * The step navigation of the page: `changeStep` and the handlers that call
 * it. Nav item `s` is the list item `.nav li:eq(s - 1)`, so the items are the
 * steps 1 .. itemCount. `changeStep(s)` plays the video iff `s` is 1, sets
 * the body class `step<s>`, takes the `active` class off every item and puts
 * it on item `s` (if there is such an item), removing its `disabled` class.
 */
module StepNavigation {

  class Navigation {
    /** How many `.nav li` items the page has. */
    const itemCount: nat
    /** The `s` of the body class `step<s>`. */
    var bodyStep: int
    /** The items carrying the class `active`. */
    var active: set<int>
    /** The items carrying the class `disabled`. */
    var disabled: set<int>
    /** Whether the video element is playing. */
    var playing: bool

    predicate IsItem(s: int) {
      1 <= s <= itemCount
    }

    /** The classes sit only on items. */
    ghost predicate Valid()
      reads this
    {
      (forall s :: s in active ==> IsItem(s)) &&
      (forall s :: s in disabled ==> IsItem(s))
    }

    /** At most one item is active, and the active item is not disabled. */
    ghost predicate SingleActive()
      reads this
    {
      |active| <= 1 && active !! disabled
    }

    /**
     * The page as loaded. Its markup (which item is active, which are
     * disabled, the body class) and whether the video autoplays are not in
     * the script, so they are parameters; the classes may sit only on
     * items.
     */
    constructor (itemCount: nat, bodyStep: int, active: set<int>, disabled: set<int>, playing: bool)
      requires forall s :: s in active ==> 1 <= s <= itemCount
      requires forall s :: s in disabled ==> 1 <= s <= itemCount
      ensures Valid()
      ensures this.itemCount == itemCount && this.bodyStep == bodyStep
      ensures this.active == active && this.disabled == disabled && this.playing == playing
    {
      this.itemCount := itemCount;
      this.bodyStep := bodyStep;
      this.active := active;
      this.disabled := disabled;
      this.playing := playing;
    }

    method ChangeStep(step: int)
      requires Valid()
      modifies this
      ensures Valid()
      ensures playing <==> step == 1
      ensures bodyStep == step
      ensures active == if IsItem(step) then {step} else {}
      ensures disabled == old(disabled) - {step}
      ensures step !in disabled
      ensures SingleActive()
    {
      playing := step == 1;
      bodyStep := step;
      active := {};
      if IsItem(step) {
        disabled := disabled - {step};
        active := {step};
      }
    }

    /**
     * A click on the link of nav item `item`, whose `data-step` is
     * `dataStep`: nothing happens when the item is disabled.
     */
    method NavClick(item: int, dataStep: int)
      requires Valid()
      modifies this
      ensures Valid()
      ensures item in old(disabled) ==>
                bodyStep == old(bodyStep) && active == old(active) &&
                disabled == old(disabled) && playing == old(playing)
      ensures item !in old(disabled) ==>
                bodyStep == dataStep && (playing <==> dataStep == 1) &&
                active == (if IsItem(dataStep) then {dataStep} else {}) &&
                disabled == old(disabled) - {dataStep} && SingleActive()
      ensures old(SingleActive()) ==> SingleActive()
    {
      if item !in disabled {
        ChangeStep(dataStep);
      }
    }

    /** #takePicture and #go-back: to step 2, pausing the video. */
    method ToAdjust()
      requires Valid()
      modifies this
      ensures Valid()
      ensures bodyStep == 2 && !playing && disabled == old(disabled) - {2}
      ensures active == if IsItem(2) then {2} else {}
      ensures SingleActive()
    {
      ChangeStep(2);
    }

    /** #adjust: to step 3, pausing the video. */
    method ToRecognize()
      requires Valid()
      modifies this
      ensures Valid()
      ensures bodyStep == 3 && !playing && disabled == old(disabled) - {3}
      ensures active == if IsItem(3) then {3} else {}
      ensures SingleActive()
    {
      ChangeStep(3);
    }

    /** #start-over: back to step 1, playing the video again. */
    method StartOver()
      requires Valid()
      modifies this
      ensures Valid()
      ensures bodyStep == 1 && playing && disabled == old(disabled) - {1}
      ensures active == if IsItem(1) then {1} else {}
      ensures SingleActive()
    {
      ChangeStep(1);
    }
  }
}
