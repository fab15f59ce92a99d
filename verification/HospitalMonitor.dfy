/** The critical sections of Lab 10 on the program's own variables, updated in place. */
module HospitalMonitor {
  import opened HospitalModel

  class Hospital {
    var patientsInHospital: int
    var medicineInStock: int
    var patientsRemaining: int
    const patientsWaiting: array<int>
    var pharmacistWaiting: bool
    var waitingPharmacistId: int
    var doctorSleeping: bool

    ghost predicate Valid()
      reads this, patientsWaiting
    {
      InBounds(View())
    }

    ghost function View(): Shared
      reads this, patientsWaiting
    {
      Shared(patientsInHospital, medicineInStock, patientsRemaining, patientsWaiting[..],
             pharmacistWaiting, waitingPharmacistId, doctorSleeping)
    }

    constructor (numPatients: nat)
      ensures Valid() && fresh(patientsWaiting)
      ensures forall numPharmacists :: View() == Start(numPatients, numPharmacists).shared
    {
      patientsInHospital, medicineInStock, patientsRemaining := 0, CAPACITY, numPatients;
      pharmacistWaiting, waitingPharmacistId, doctorSleeping := false, 0, true;
      patientsWaiting := new int[SEATS](_ => 0);
      new;
      assert patientsWaiting[..] == [0, 0, 0];
    }

    method DoctorEnters() returns (next: DoctorPc)
      requires Valid()
      modifies this
      ensures Valid() && (View(), next) == DoctorSection(old(View()))
    {
      if doctorSleeping &&
         !((patientsInHospital >= 3 && medicineInStock >= PER_CONSULTATION) ||
           (pharmacistWaiting && medicineInStock < PER_CONSULTATION)) {
        if patientsRemaining <= 0 && patientsInHospital == 0 {
          return DDone;
        }
        return DBlocked(false);
      }
      if patientsRemaining <= 0 && patientsInHospital == 0 {
        return DDone;
      }
      doctorSleeping := false;
      if patientsInHospital >= 3 && medicineInStock >= PER_CONSULTATION {
        next := DConsulting(patientsWaiting[..]);
      } else if pharmacistWaiting && medicineInStock < PER_CONSULTATION {
        next := DDelivering;
      } else {
        doctorSleeping := true;
        next := DReadRemaining;
      }
    }

    method EndConsultation()
      requires Valid()
      modifies this
      ensures Valid() && View() == FinishConsultation(old(View()))
    {
      medicineInStock := medicineInStock - PER_CONSULTATION;
      patientsInHospital := 0;
      doctorSleeping := true;
    }

    method EndDelivery()
      requires Valid()
      modifies this
      ensures Valid() && View() == FinishDelivery(old(View()))
    {
      medicineInStock := medicineInStock + DELIVERY;
      if medicineInStock > CAPACITY {
        medicineInStock := CAPACITY;
      }
      pharmacistWaiting := false;
      doctorSleeping := true;
    }

    method PatientEnters(id: int) returns (next: PatientPc, callsDoctor: bool)
      requires Valid()
      modifies this, patientsWaiting
      ensures Valid() && (View(), next) == PatientEnter(old(View()), id)
      ensures callsDoctor == CallsDoctor(old(View()))
    {
      callsDoctor := false;
      if patientsRemaining <= 0 {
        return PDone(false), false;
      }
      if patientsInHospital >= SEATS {
        return PReadRemaining(false), false;
      }
      patientsWaiting[patientsInHospital] := id;
      patientsInHospital := patientsInHospital + 1;
      if patientsInHospital == 3 && medicineInStock >= PER_CONSULTATION {
        doctorSleeping := false;
        callsDoctor := true;
      }
      next := PatientWaits(patientsInHospital - 1);
    }

    /** One evaluation of the waiting loop's test, and the code behind the loop. */
    method PatientWaits(position: int) returns (next: PatientPc)
      requires Valid()
      modifies this
      ensures Valid() && (View(), next) == PatientLoop(old(View()), position)
    {
      if patientsInHospital > 0 &&
         (position >= 3 || patientsInHospital < 3 || medicineInStock < PER_CONSULTATION) {
        if patientsRemaining > 0 {
          return PWaiting(position, false);
        }
      }
      next := PatientLeaves(position, false);
    }

    method PatientLeaves(position: int, treated: bool) returns (next: PatientPc)
      requires Valid()
      modifies this
      ensures Valid() && (View(), next) == PatientLeave(old(View()), position, treated)
    {
      next := PReadRemaining(treated);
      if position < 3 && patientsInHospital == 0 {
        next := PReadRemaining(true);
        patientsRemaining := patientsRemaining - 1;
      }
    }

    method PatientWakes(id: int, position: int) returns (next: PatientPc)
      requires Valid()
      modifies this
      ensures Valid() && (View(), next) == PatientWake(old(View()), position, id)
    {
      var stillWaiting, at := false, position;
      ghost var s := View();
      var i := 0;
      while i < patientsInHospital
        invariant 0 <= i <= patientsInHospital && View() == s
        invariant !stillWaiting && at == position
        invariant FindSeat(s.slots, s.inHospital, id) == FindSeat(s.slots, s.inHospital, id, i)
      {
        if patientsWaiting[i] == id {
          at := i;
          stillWaiting := true;
          break;
        }
        i := i + 1;
      }
      if stillWaiting {
        next := PatientWaits(at);
      } else {
        next := PatientLeaves(at, true);
      }
    }

    method PharmacistEnters(id: int) returns (next: PharmacistPc, callsDoctor: bool)
      requires Valid()
      modifies this
      ensures Valid() && (View(), next) == PharmacistEnter(old(View()), id)
      ensures callsDoctor == OffersDelivery(old(View()))
    {
      if patientsRemaining <= 0 && patientsInHospital == 0 {
        return FDone, false;
      }
      if medicineInStock >= PER_CONSULTATION {
        next, callsDoctor := PharmacistSeesStock(id);
      } else {
        next := PharmacistOffers(id);
        callsDoctor := true;
      }
    }

    /** One evaluation of the shortage loop's test, and the code behind the loop. */
    method PharmacistSeesStock(id: int) returns (next: PharmacistPc, callsDoctor: bool)
      requires Valid()
      modifies this
      ensures Valid() && (View(), next) == PharmacistShortage(old(View()), id)
      ensures callsDoctor == OffersDelivery(old(View()))
    {
      if medicineInStock >= PER_CONSULTATION && (patientsRemaining > 0 || patientsInHospital > 0) {
        return FAwaitShortage(false), false;
      }
      if patientsRemaining <= 0 && patientsInHospital == 0 {
        return FDone, false;
      }
      if medicineInStock < PER_CONSULTATION {
        next := PharmacistOffers(id);
        callsDoctor := true;
      } else {
        next, callsDoctor := FReadRemaining, false;
      }
    }

    method PharmacistOffers(id: int) returns (next: PharmacistPc)
      requires Valid()
      modifies this
      ensures Valid() && View() == Offer(old(View()), id) && next == FAwaitDelivery(false)
    {
      pharmacistWaiting := true;
      waitingPharmacistId := id;
      doctorSleeping := false;
      next := FAwaitDelivery(false);
    }
  }
}
