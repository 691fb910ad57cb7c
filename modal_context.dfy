/** The app-wide modal slot: at most one modal, of kind "user" or
    "organizer", open at a time, with the entity it shows. */
module ModalContext {
  import opened Js

  datatype ModalKind = UserModal | OrganizerModal

  /** The provider's `modal` state: `type` and `entity`, each possibly null. */
  class ModalStore<E> {
    var kind: Option<ModalKind>
    var entity: Option<E>

    /** The provider starts closed. */
    constructor ()
      ensures kind == None && entity == None
      ensures !IsOpen()
    {
      kind := None;
      entity := None;
    }

    predicate IsOpen()
      reads this
    {
      kind.Some?
    }

    /** `openModal(type, entity)`: the slot holds exactly these two, whatever
        was open before. */
    method OpenModal(k: Option<ModalKind>, e: Option<E>)
      modifies this
      ensures kind == k && entity == e
      ensures IsOpen() <==> k.Some?
    {
      kind := k;
      entity := e;
    }

    /** `closeModal()` */
    method CloseModal()
      modifies this
      ensures kind == None && entity == None
      ensures !IsOpen()
    {
      kind := None;
      entity := None;
    }
  }

  /** Closing twice leaves the slot as closing once does. */
  method CloseTwice<E>(store: ModalStore<E>)
    modifies store
    ensures store.kind == None && store.entity == None
  {
    store.CloseModal();
    ghost var kind, entity := store.kind, store.entity;
    store.CloseModal();
    assert store.kind == kind && store.entity == entity;
  }

  /** Opening a second modal replaces the first outright. */
  method OpenReplaces<E>(store: ModalStore<E>, k1: ModalKind, e1: E, k2: ModalKind, e2: Option<E>)
    modifies store
    ensures store.kind == Some(k2) && store.entity == e2
  {
    store.OpenModal(Some(k1), Some(e1));
    store.OpenModal(Some(k2), e2);
  }

  const OutsideProvider: string := "useModals must be used within ModalProvider"

  /** The outcome of `useModals()`: the context, or the error it throws. */
  datatype Lookup<C> = Found(context: C) | Thrown(message: string)

  /** `useModals()` given the nearest provider's context, if any. */
  function UseModals<C>(context: Option<C>): (r: Lookup<C>)
    ensures r.Thrown? <==> context.None?
    ensures r.Thrown? ==> r.message == OutsideProvider
    ensures r.Found? ==> r.context == context.value
  {
    match context
    case None => Thrown(OutsideProvider)
    case Some(c) => Found(c)
  }
}
