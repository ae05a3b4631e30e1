/**
 * The view-model (`RadioViewModel`): holds an optional reference to the bound
 * service and a mirrored copy of its published state, and forwards UI commands
 * to the service. Each coroutine launch is taken to run at once, in sequence.
 * The mirror is copied right after a command is posted, before the service's
 * handler has run it, so it may lag behind the service.
 */
module Bridge {
  import opened RadioTypes
  import opened Coordinator

  class RadioViewModel {
    var radioService: RadioService?
    var isBound: bool
    var radioState: RadioState
    /** How many times `unbindService` has been called. */
    var unbindCalls: nat

    /** A bound view-model always holds a service; a held service is in a consistent state. */
    ghost predicate Valid()
      reads this, radioService
    {
      && (isBound ==> radioService != null)
      && (radioService != null ==> radioService.Valid())
    }

    /** Construction: no service yet (binding completes later, through `OnServiceConnected`). */
    constructor ()
      ensures Valid()
      ensures radioService == null && !isBound && unbindCalls == 0
      ensures radioState == InitialRadioState
    {
      radioService := null;
      isBound := false;
      radioState := InitialRadioState;
      unbindCalls := 0;
    }

    /** `serviceConnection.onServiceConnected`: keep the service, mark bound, copy its state. */
    method OnServiceConnected(service: RadioService)
      requires service.Valid()
      modifies this
      ensures Valid()
      ensures radioService == service && isBound
      ensures radioState == service.GetCurrentState()
      ensures unbindCalls == old(unbindCalls)
    {
      radioService := service;
      isBound := true;
      UpdateStateFromService();
    }

    /** `serviceConnection.onServiceDisconnected`: forget the service; the mirror keeps its last value. */
    method OnServiceDisconnected()
      modifies this
      ensures Valid()
      ensures radioService == null && !isBound
      ensures radioState == old(radioState) && unbindCalls == old(unbindCalls)
    {
      radioService := null;
      isBound := false;
    }

    /** `updateStateFromService`: overwrite the mirror with the service's state, or leave it when there is no service. */
    method UpdateStateFromService()
      modifies this`radioState
      ensures radioState == if radioService != null then radioService.GetCurrentState() else old(radioState)
    {
      if radioService != null {
        radioState := radioService.GetCurrentState();
      }
    }

    /** `playStation`: forward to the service, if any, then refresh the mirror. */
    method PlayStation(station: RadioStation)
      requires Valid()
      modifies this`radioState, radioService
      ensures Valid()
      ensures radioService == null ==> radioState == old(radioState)
      ensures radioService != null ==>
        && radioService.Current() == Apply(old(radioService.Current()), PlayRequest(station))
        && radioState == radioService.GetCurrentState()
    {
      if radioService != null {
        radioService.PlayRadio(station);
      }
      UpdateStateFromService();
    }

    /** `togglePlayPause`: pause when the service reports playing, resume otherwise. */
    method TogglePlayPause()
      requires Valid()
      modifies this`radioState, radioService
      ensures Valid()
      ensures radioService == null ==> radioState == old(radioState)
      ensures radioService != null ==>
        && radioService.Current() ==
             Apply(old(radioService.Current()), if old(radioService.isPlaying) then PauseRequest else ResumeRequest)
        && radioState == radioService.GetCurrentState()
    {
      if radioService != null {
        if radioService.GetCurrentState().isPlaying {
          radioService.PauseRadio();
        } else {
          radioService.ResumeRadio();
        }
        UpdateStateFromService();
      }
    }

    /** `setVolume`: forward to the service, if any, then refresh the mirror. */
    method SetVolume(volume: Volume)
      requires Valid()
      modifies this`radioState, radioService
      ensures Valid()
      ensures radioService == null ==> radioState == old(radioState)
      ensures radioService != null ==>
        && radioService.Current() == Apply(old(radioService.Current()), VolumeRequest(volume))
        && radioState == radioService.GetCurrentState()
    {
      if radioService != null {
        radioService.SetVolume(volume);
      }
      UpdateStateFromService();
    }

    /**
     * `onCleared`: unbind once if bound and clear the flag; a second call does
     * nothing. The service reference is kept (unbinding does not raise
     * `onServiceDisconnected`).
     */
    method OnCleared()
      requires Valid()
      modifies this
      ensures Valid()
      ensures !isBound
      ensures unbindCalls == old(unbindCalls) + (if old(isBound) then 1 else 0)
      ensures radioService == old(radioService) && radioState == old(radioState)
      ensures !old(isBound) ==> unchanged(this)
    {
      if isBound {
        unbindCalls := unbindCalls + 1;
        isBound := false;
      }
    }
  }

  /** A client: clearing the view-model twice unbinds exactly once. */
  method ClearTwice(vm: RadioViewModel)
    requires vm.Valid() && vm.isBound
    modifies vm
    ensures vm.unbindCalls == old(vm.unbindCalls) + 1 && !vm.isBound
  {
    vm.OnCleared();
    vm.OnCleared();
  }

  /** A client: commands given before the service connects reach no service and leave the mirror alone. */
  method CommandsBeforeBindingAreDropped(station: RadioStation, volume: Volume) returns (vm: RadioViewModel)
    ensures fresh(vm) && vm.radioService == null && vm.radioState == InitialRadioState
  {
    vm := new RadioViewModel();
    vm.PlayStation(station);
    vm.TogglePlayPause();
    vm.SetVolume(volume);
  }
}
