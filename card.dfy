/**
 * The state every card keeps apart from its DOM element: its type, data,
 * options, the FIFO queue of pending animations and the destroyed flag.
 * The DOM element itself is reduced to whether the card has one and
 * whether that element sits inside a parent.
 */
module Cards {
  import opened Wrappers

  /** A value in a card's options object. Callbacks are named, not run. */
  datatype OptionValue = Flag(b: bool) | Number(n: int) | Text(s: string) | Handler(name: string)

  /** A card options object: property name to value. */
  type Options = map<string, OptionValue>

  /** A queued animation request: its type (`'entrance'`, `'shake'`, ...) and its options. */
  datatype Animation = Animation(kind: string, options: Options)

  /** The animation effect a queue entry starts; unknown types start nothing. */
  datatype Effect = Entrance | Exit | Highlight | Shake | Pulse | NoEffect

  /** The dispatch on an animation's type when it is taken off the queue. */
  function EffectOf(kind: string): (e: Effect)
    ensures e == NoEffect <==> kind !in {"entrance", "exit", "highlight", "shake", "pulse"}
    ensures e == Exit <==> kind == "exit"
  {
    match kind
    case "entrance" => Entrance
    case "exit" => Exit
    case "highlight" => Highlight
    case "shake" => Shake
    case "pulse" => Pulse
    case _ => NoEffect
  }

  class BaseCard<D> {
    var cardType: string
    var data: D
    var options: Options
    /** `this.element` is non-null. */
    var hasElement: bool
    /** `this.element.parentElement` is non-null. */
    var isAttached: bool
    var animationQueue: seq<Animation>
    var isDestroyed: bool

    /** A card without an element, with an empty queue and not destroyed. */
    constructor (cardType: string, data: D, options: Options)
      ensures this.cardType == cardType && this.data == data && this.options == options
      ensures !hasElement && !isAttached
      ensures animationQueue == [] && !isDestroyed
    {
      this.cardType := cardType;
      this.data := data;
      this.options := options;
      hasElement := false;
      isAttached := false;
      animationQueue := [];
      isDestroyed := false;
    }

    /**
     * Takes the front request off the queue and starts its effect, but only
     * when the queue is non-empty and the card has an element; otherwise
     * nothing changes.
     */
    method ProcessAnimationQueue() returns (started: Option<Effect>)
      modifies this`animationQueue
      ensures old(animationQueue) != [] && hasElement ==>
                animationQueue == old(animationQueue)[1..]
                && started == Some(EffectOf(old(animationQueue)[0].kind))
      ensures !(old(animationQueue) != [] && hasElement) ==>
                animationQueue == old(animationQueue) && started == None
    {
      if |animationQueue| > 0 && hasElement {
        var animation := animationQueue[0];
        animationQueue := animationQueue[1..];
        started := Some(EffectOf(animation.kind));
      } else {
        started := None;
      }
    }

    /** Appends a request to the back of the queue, then processes the queue once. */
    method Animate(kind: string, animationOptions: Options) returns (started: Option<Effect>)
      modifies this`animationQueue
      ensures var pushed := old(animationQueue) + [Animation(kind, animationOptions)];
              if hasElement then animationQueue == pushed[1..] && started == Some(EffectOf(pushed[0].kind))
              else animationQueue == pushed && started == None
    {
      animationQueue := animationQueue + [Animation(kind, animationOptions)];
      started := ProcessAnimationQueue();
    }

    /**
     * Marks the card destroyed and empties the queue. An attached element
     * first has an exit animation requested, whose callback would remove it.
     * That request joins the back of the queue and only the front request
     * is started, so with a request already pending it is that request's
     * effect which starts, and the exit request is cleared unstarted.
     */
    method Destroy() returns (started: Option<Effect>)
      modifies this`animationQueue, this`isDestroyed
      ensures isDestroyed && animationQueue == []
      ensures var exit := Animation("exit", map["callback" := Handler("removeWrapper")]);
              started == if hasElement && isAttached then Some(EffectOf((old(animationQueue) + [exit])[0].kind)) else None
      ensures started == Some(Exit) <==>
                hasElement && isAttached && (old(animationQueue) == [] || old(animationQueue)[0].kind == "exit")
    {
      isDestroyed := true;
      started := None;
      if hasElement && isAttached {
        started := Animate("exit", map["callback" := Handler("removeWrapper")]);
      }
      animationQueue := [];
    }
  }
}
